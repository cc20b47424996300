/**
 * The user dashboard's rules: the loyalty tier table, the lookup of the
 * member's current and next tier by name, the points still needed for the
 * next tier, and how a booking's status picks its chip colour, icon and
 * actions.
 */
module Dashboard {
  import opened Opt

  // ------------------------------------------------------------ loyalty

  datatype Tier = Tier(name: string, points: int, color: string, benefits: seq<string>)

  const LoyaltyTiers: seq<Tier> := [
    Tier("Bronze", 0, "#CD7F32", ["5% discount", "Priority support"]),
    Tier("Silver", 1000, "#C0C0C0", ["10% discount", "Early access", "Free cleaning"]),
    Tier("Gold", 2000, "#FFD700", ["15% discount", "Premium support", "Free security"]),
    Tier("Platinum", 5000, "#E5E4E2", ["20% discount", "Concierge service", "All services included"])]

  /** Thresholds rise strictly from one tier to the next, starting at zero. */
  lemma TiersStrictlyIncreasing()
    ensures LoyaltyTiers[0].points == 0
    ensures forall i, j :: 0 <= i < j < |LoyaltyTiers| ==> LoyaltyTiers[i].points < LoyaltyTiers[j].points
  {
  }

  /** `findIndex` by name from position `from`: the first match, or -1. */
  function FindIndexFrom(tiers: seq<Tier>, name: string, from: nat): (i: int)
    requires from <= |tiers|
    ensures i == -1 || from <= i < |tiers|
    ensures i >= 0 ==> tiers[i].name == name
    ensures forall k :: from <= k < |tiers| && (i == -1 || k < i) ==> tiers[k].name != name
    decreases |tiers| - from
  {
    if from == |tiers| then -1
    else if tiers[from].name == name then from
    else FindIndexFrom(tiers, name, from + 1)
  }

  /** The position of the tier called `name`, or -1 when there is none. */
  function TierIndex(name: string): (i: int)
    ensures -1 <= i < |LoyaltyTiers|
    ensures i >= 0 <==> exists k :: 0 <= k < |LoyaltyTiers| && LoyaltyTiers[k].name == name
    ensures i >= 0 ==> LoyaltyTiers[i].name == name
  {
    FindIndexFrom(LoyaltyTiers, name, 0)
  }

  /** The member's tier: the one whose name matches, falling back to Bronze. */
  function CurrentTier(name: string): (t: Tier)
    ensures t in LoyaltyTiers
    ensures TierIndex(name) >= 0 ==> t.name == name
    ensures TierIndex(name) == -1 ==> t == LoyaltyTiers[0]
  {
    var i := TierIndex(name);
    if i >= 0 then LoyaltyTiers[i] else LoyaltyTiers[0]
  }

  /** The tier after the member's as the page looks it up: at position `findIndex + 1`. */
  function NextTierAsWritten(name: string): (t: Option<Tier>)
    ensures t.None? <==> TierIndex(name) == |LoyaltyTiers| - 1
    ensures t.Some? ==> t.value == LoyaltyTiers[TierIndex(name) + 1]
  {
    var j := TierIndex(name) + 1;
    if j < |LoyaltyTiers| then Some(LoyaltyTiers[j]) else None
  }

  /**
   * For a name missing from the table the page falls back to Bronze as the
   * current tier and yet names Bronze again as the next one, so the progress
   * line reads "N points to Bronze" instead of pointing at Silver.
   */
  lemma NextTierOfUnknownNameIsCurrent(name: string)
    requires TierIndex(name) == -1
    ensures CurrentTier(name) == LoyaltyTiers[0]
    ensures NextTierAsWritten(name) == Some(CurrentTier(name))
    ensures NextTierAsWritten(name).value.points == CurrentTier(name).points
  {
  }

  /** "Diamond" is such a name. */
  lemma DiamondIsUnknown()
    ensures TierIndex("Diamond") == -1
  {
    assert forall k :: 0 <= k < |LoyaltyTiers| ==> LoyaltyTiers[k].name != "Diamond";
  }

  /**
   * The tier right after the member's current tier (the fallback included):
   * the lowest threshold above the current one, or None at the top.
   */
  function NextTier(name: string): (t: Option<Tier>)
    ensures t.None? <==> CurrentTier(name) == LoyaltyTiers[|LoyaltyTiers| - 1]
    ensures t.Some? ==> t.value in LoyaltyTiers && t.value.points > CurrentTier(name).points
    ensures t.Some? ==> forall k :: 0 <= k < |LoyaltyTiers| && LoyaltyTiers[k].points > CurrentTier(name).points
                          ==> LoyaltyTiers[k].points >= t.value.points
    ensures TierIndex(name) == -1 ==> t == Some(LoyaltyTiers[1])
  {
    var i := TierIndex(name);
    var j := (if i >= 0 then i else 0) + 1;
    if j < |LoyaltyTiers| then Some(LoyaltyTiers[j]) else None
  }

  /** For every name in the table the corrected lookup agrees with the page's. */
  lemma NextTierAgreesOnKnownNames(name: string)
    requires TierIndex(name) >= 0
    ensures NextTier(name) == NextTierAsWritten(name)
  {
  }

  /**
   * The "N points to <tier>" figure as the page shows it, from its own
   * next-tier lookup; None when the progress block is hidden.
   */
  function PointsToNextTierAsWritten(name: string, points: int): (r: Option<int>)
    ensures r.None? <==> NextTierAsWritten(name).None?
    ensures r.Some? ==> r.value + points == NextTierAsWritten(name).value.points
  {
    match NextTierAsWritten(name)
    case Some(t) => Some(t.points - points)
    case None => None
  }

  /** The same figure over the corrected next tier. */
  function PointsToNextTier(name: string, points: int): (r: Option<int>)
    ensures r.None? <==> NextTier(name).None?
    ensures r.Some? ==> r.value + points == NextTier(name).value.points
  {
    match NextTier(name)
    case Some(t) => Some(t.points - points)
    case None => None
  }

  /**
   * For a name outside the table the page counts down to Bronze's threshold
   * of 0, so the figure is never positive for a member with points, while
   * the corrected lookup counts down to Silver.
   */
  lemma UnknownNamePoints(name: string, points: int)
    requires TierIndex(name) == -1
    ensures PointsToNextTierAsWritten(name, points) == Some(0 - points)
    ensures PointsToNextTier(name, points) == Some(1000 - points)
  {
  }

  /** For every name in the table both figures agree. */
  lemma PointsAgreeOnKnownNames(name: string, points: int)
    requires TierIndex(name) >= 0
    ensures PointsToNextTierAsWritten(name, points) == PointsToNextTier(name, points)
  {
    NextTierAgreesOnKnownNames(name);
  }

  /** The mock Gold member with 2450 points is shown 2550 points short of Platinum. */
  lemma MockMemberProgress()
    ensures CurrentTier("Gold").points == 2000
    ensures NextTierAsWritten("Gold") == Some(LoyaltyTiers[3]) && LoyaltyTiers[3].name == "Platinum"
    ensures PointsToNextTierAsWritten("Gold", 2450) == Some(2550)
    ensures NextTierAsWritten("Platinum").None?
  {
    assert TierIndex("Gold") == 2;
    assert TierIndex("Platinum") == 3;
  }

  // ------------------------------------------------------------ statuses

  datatype ChipColor = Success | Warning | Error | Default

  /** The chip colour of a booking status. */
  function StatusColor(status: string): (c: ChipColor)
    ensures c == Success <==> status == "completed"
    ensures c == Warning <==> status == "upcoming"
    ensures c == Error <==> status == "cancelled"
  {
    match status
    case "completed" => Success
    case "upcoming" => Warning
    case "cancelled" => Error
    case _ => Default
  }

  datatype IconKind = CompletedIcon | PendingIcon | CancelledIcon | ScheduleIcon

  /**
   * The status icon and the palette colour it is drawn in: each known status
   * has its own icon in its chip's colour; any other status gets the
   * uncoloured schedule icon.
   */
  function StatusIcon(status: string): (r: (IconKind, Option<ChipColor>))
    ensures r.0 == ScheduleIcon <==> StatusColor(status) == Default
    ensures r.1.None? <==> StatusColor(status) == Default
    ensures r.1.Some? ==> r.1.value == StatusColor(status)
    ensures r.0 == CompletedIcon <==> status == "completed"
    ensures r.0 == PendingIcon <==> status == "upcoming"
    ensures r.0 == CancelledIcon <==> status == "cancelled"
  {
    match status
    case "completed" => (CompletedIcon, Some(Success))
    case "upcoming" => (PendingIcon, Some(Warning))
    case "cancelled" => (CancelledIcon, Some(Error))
    case _ => (ScheduleIcon, None)
  }

  /** A booking as the dashboard lists it. */
  datatype DashboardBooking = DashboardBooking(
    id: int, title: string, location: string, date: string, time: string,
    status: string, amount: int, rating: Option<int>, smartContract: Option<string>)

  /** The Access Code button appears for upcoming bookings, the ones with the warning chip. */
  predicate ShowsAccessCode(b: DashboardBooking): (r: bool)
    ensures r <==> StatusColor(b.status) == Warning
  {
    b.status == "upcoming"
  }

  /** The rating appears for a completed booking whose rating is present and non-zero (truthy). */
  predicate ShowsRating(b: DashboardBooking): (r: bool)
    ensures r <==> StatusColor(b.status) == Success && b.rating.Some? && b.rating.value != 0
  {
    b.status == "completed" && b.rating.Some? && b.rating.value != 0
  }

  /** No booking shows both actions, and a cancelled or unknown status shows neither. */
  lemma ActionsByStatus(b: DashboardBooking)
    ensures !(ShowsAccessCode(b) && ShowsRating(b))
    ensures b.status == "cancelled" || StatusColor(b.status) == Default ==> !ShowsAccessCode(b) && !ShowsRating(b)
  {
  }
}
