/**
 * The booking wizard: four steps walked one at a time, the add-on selection,
 * and the simulated smart-contract confirmation, which opens a dialog, shows
 * "processing" until a first timer fires, then shows "confirmed", writes the
 * booking at the front of the stored list and, when a second timer fires,
 * closes the dialog and leaves for the dashboard.
 */
module BookingFlow {
  import opened Opt
  import opened Clock
  import opened Pricing
  import opened ServiceSelection

  // ---------------------------------------------------------------- steps

  const StepLabels: seq<string> := ["Select Date & Time", "Add Services", "Contact Info", "Payment & Confirm"]
  const LastStep: int := |StepLabels| - 1

  datatype BookingStep = BookingStep(name: string, completed: bool)

  /** The stepper as shown for `active`: a step counts as done once the wizard is past it, the last one never. */
  function Steps(active: int): (r: seq<BookingStep>)
    ensures |r| == |StepLabels|
    ensures forall i :: 0 <= i < |r| ==> r[i].name == StepLabels[i]
    ensures forall i :: 0 <= i < |r| ==> (r[i].completed <==> i < LastStep && active > i)
  {
    [ BookingStep(StepLabels[0], active > 0),
      BookingStep(StepLabels[1], active > 1),
      BookingStep(StepLabels[2], active > 2),
      BookingStep(StepLabels[3], false) ]
  }

  /** The step after "Next": one further, unless already on the last step. */
  function NextStep(s: int): (r: int)
    ensures s < LastStep ==> r == s + 1
    ensures s >= LastStep ==> r == s
  {
    if s < LastStep then s + 1 else s
  }

  /** The step after "Back": one back, unless already on the first step. */
  function BackStep(s: int): (r: int)
    ensures s > 0 ==> r == s - 1
    ensures s <= 0 ==> r == s
  {
    if s > 0 then s - 1 else s
  }

  function NextTimes(s: int, n: nat): int
  {
    if n == 0 then s else NextStep(NextTimes(s, n - 1))
  }

  function BackTimes(s: int, n: nat): int
  {
    if n == 0 then s else BackStep(BackTimes(s, n - 1))
  }

  /** However often "Next" is pressed, the wizard stops on the last step. */
  lemma {:induction false} NextTimesClamped(s: int, n: nat)
    requires 0 <= s <= LastStep
    ensures NextTimes(s, n) == if s + n < LastStep then s + n else LastStep
  {
    if n > 0 { NextTimesClamped(s, n - 1); }
  }

  /** However often "Back" is pressed, the wizard stops on the first step. */
  lemma {:induction false} BackTimesClamped(s: int, n: nat)
    requires 0 <= s <= LastStep
    ensures BackTimes(s, n) == if s - n > 0 then s - n else 0
  {
    if n > 0 { BackTimesClamped(s, n - 1); }
  }

  /** "Back" undoes a "Next" that moved, and "Next" undoes a "Back" that moved. */
  lemma NextBackRoundTrip(s: int)
    requires 0 <= s <= LastStep
    ensures s < LastStep ==> BackStep(NextStep(s)) == s
    ensures s > 0 ==> NextStep(BackStep(s)) == s
  {
  }

  // ---------------------------------------------------------- the booking

  datatype ContactInfo = ContactInfo(name: string, email: string, phone: string)

  datatype BookingData = BookingData(
    date: string, startTime: string, endTime: string, guestCount: int,
    specialRequests: string, contactInfo: ContactInfo)

  const InitialData := BookingData("", "", "", 50, "", ContactInfo("", "", ""))

  datatype SpaceSummary = SpaceSummary(title: string, image: string, location: string)

  /** The space being booked (fixed mock data on the page). */
  const Space := SpaceSummary("Ramaiah Sports Ground",
    "http://d2e9h3gjmozu47.cloudfront.net/Gallery/sports/sports-full/a.jpg", "Mathikere, Bengaluru")
  const BasePrice: int := 1200

  /** The add-on catalogue. */
  const AvailableServices: seq<Service> := [
    Service("1", "Professional Cleaning", "CleanPro SF", 3500, Cleaning),
    Service("2", "Security Guard", "SecureSpace", 2000, Security),
    Service("3", "Sound System Rental", "AudioTech", 4500, Equipment),
    Service("4", "Catering Service", "Local Bites", 300, Catering)]

  /** A stored booking; `amount` is None where the page stored NaN (written as null). */
  datatype BookingRecord = BookingRecord(
    id: int, space: SpaceSummary, date: string, time: string, status: string, amount: Option<real>)

  /** What the first timer's callback captured when "Confirm & Pay" was clicked. */
  datatype PendingConfirmation = PendingConfirmation(date: string, time: string, amount: Option<real>)

  /** The time text of a record, "start - end". */
  function TimeRange(start: string, end: string): (t: string)
    ensures |t| == |start| + 3 + |end|
    ensures t[..|start|] == start && t[|start| + 3..] == end
    ensures t[|start|..|start| + 3] == " - "
  {
    start + " - " + end
  }

  /** The total shown for a booking and selection. */
  function BookingTotal(d: BookingData, selected: seq<Service>): Option<real>
  {
    Total(BasePrice, d.startTime, d.endTime, d.guestCount, selected)
  }

  /** The record written when the processing timer fires. */
  function NewRecord(id: int, p: PendingConfirmation): (r: BookingRecord)
    ensures r.id == id && r.status == "upcoming" && r.space == Space
    ensures r.date == p.date && r.time == p.time && r.amount == p.amount
  {
    BookingRecord(id, Space, p.date, p.time, "upcoming", p.amount)
  }

  /** The stored list after a confirmation: the new record first, then the old list in its order. */
  function Prepend(store: seq<BookingRecord>, rec: BookingRecord): (r: seq<BookingRecord>)
    ensures |r| == |store| + 1 && r[0] == rec && r[1..] == store
  {
    [rec] + store
  }

  predicate IdsUnique(store: seq<BookingRecord>)
  {
    forall i, j :: 0 <= i < j < |store| ==> store[i].id != store[j].id
  }

  /** A record whose id is fresh keeps the stored ids distinct. */
  lemma PrependFreshId(store: seq<BookingRecord>, rec: BookingRecord)
    requires IdsUnique(store)
    requires forall k :: 0 <= k < |store| ==> store[k].id != rec.id
    ensures IdsUnique(Prepend(store, rec))
  {
    var r := Prepend(store, rec);
    forall i, j | 0 <= i < j < |r| ensures r[i].id != r[j].id {
      assert r[j] == store[j - 1];
      if i > 0 { assert r[i] == store[i - 1]; }
    }
  }

  /** The stored time text gives back both clock times. */
  lemma TimeRangeOfClocks(a: nat, b: nat)
    requires a < MinutesPerDay && b < MinutesPerDay
    ensures ParseClock(TimeRange(ClockText(a), ClockText(b))[..5]) == Some(a)
    ensures ParseClock(TimeRange(ClockText(a), ClockText(b))[8..]) == Some(b)
  {
    ParseClockText(a);
    ParseClockText(b);
  }

  /** The mock booking, 10:00 to 14:00 for 50 guests with catering, costs 4800 + 15000. */
  lemma MockBookingTotal()
    ensures Hours("10:00", "14:00") == Some(4.0)
    ensures Total(BasePrice, "10:00", "14:00", 50, [AvailableServices[3]]) == Some(19800.0)
  {
    assert ParseClock("10:00") == Some(600);
    assert ParseClock("14:00") == Some(840);
    assert ServicesTotal([AvailableServices[3]], 50) == 15000 by {
      assert [AvailableServices[3]][..0] == [];
    }
  }

  // ------------------------------------------------- the dialog's lifecycle

  /** The confirmation dialog's three flags. */
  datatype DialogFlags = DialogFlags(dialogOpen: bool, isProcessing: bool, bookingConfirmed: bool)

  const InitialFlags := DialogFlags(false, false, false)

  /** A dialog that is open is either processing or confirmed. */
  predicate DialogConsistent(f: DialogFlags)
  {
    f.dialogOpen ==> f.isProcessing || f.bookingConfirmed
  }

  /** The dialog shows its Cancel action only while neither processing nor confirmed. */
  predicate CancelShown(f: DialogFlags)
  {
    !f.isProcessing && !f.bookingConfirmed
  }

  /** Clicking "Confirm & Pay": the dialog opens, processing. */
  function OnConfirm(f: DialogFlags): (g: DialogFlags)
    ensures g.dialogOpen && g.isProcessing && g.bookingConfirmed == f.bookingConfirmed
    ensures !CancelShown(g)
  {
    f.(dialogOpen := true, isProcessing := true)
  }

  /** The processing timer fires: processing stops and the booking is confirmed. */
  function OnProcessed(f: DialogFlags): (g: DialogFlags)
    ensures !g.isProcessing && g.bookingConfirmed && g.dialogOpen == f.dialogOpen
    ensures !CancelShown(g)
  {
    f.(isProcessing := false, bookingConfirmed := true)
  }

  /** The exit timer fires: the dialog closes. */
  function OnExit(f: DialogFlags): (g: DialogFlags)
    ensures !g.dialogOpen && g.isProcessing == f.isProcessing && g.bookingConfirmed == f.bookingConfirmed
  {
    f.(dialogOpen := false)
  }

  /** Clicking Cancel closes the dialog, when the dialog is open and shows Cancel. */
  function OnCancel(f: DialogFlags): (g: DialogFlags)
    ensures f.dialogOpen && CancelShown(f) ==> !g.dialogOpen
    ensures g.isProcessing == f.isProcessing && g.bookingConfirmed == f.bookingConfirmed
    ensures !(f.dialogOpen && CancelShown(f)) ==> g == f
  {
    if f.dialogOpen && CancelShown(f) then f.(dialogOpen := false) else f
  }

  /** Every transition keeps an open dialog processing or confirmed. */
  lemma TransitionsKeepDialogConsistent(f: DialogFlags)
    requires DialogConsistent(f)
    ensures DialogConsistent(OnConfirm(f)) && DialogConsistent(OnProcessed(f))
    ensures DialogConsistent(OnExit(f)) && DialogConsistent(OnCancel(f))
  {
  }

  /**
   * So in every reachable state an open dialog never shows Cancel, and the
   * Cancel transition never changes anything once a confirmation has begun.
   */
  lemma CancelNeverShownWhileOpen(f: DialogFlags)
    requires DialogConsistent(f)
    ensures f.dialogOpen ==> !CancelShown(f)
    ensures OnCancel(f) == f
  {
  }

  /** The confirmation scenario: confirm, a cancel that does nothing, then the timer. */
  lemma ConfirmScenario()
    ensures OnConfirm(InitialFlags).isProcessing
    ensures OnCancel(OnConfirm(InitialFlags)) == OnConfirm(InitialFlags)
    ensures OnProcessed(OnCancel(OnConfirm(InitialFlags))) == DialogFlags(true, false, true)
  {
  }

  // ------------------------------------------------------------ the page

  class BookingWizard {
    var activeStep: int
    var data: BookingData
    var selected: seq<Service>
    var dialogOpen: bool
    var isProcessing: bool
    var bookingConfirmed: bool
    /** The processing callbacks scheduled and not yet run, oldest first. */
    var pendingConfirmations: seq<PendingConfirmation>
    /** The closing callbacks scheduled and not yet run. */
    var pendingExits: nat
    /** The browser's stored booking list. */
    var store: seq<BookingRecord>
    /** Set once the page has asked to leave for the dashboard. */
    var leftForDashboard: bool

    function Flags(): DialogFlags
      reads this
    {
      DialogFlags(dialogOpen, isProcessing, bookingConfirmed)
    }

    ghost predicate Valid()
      reads this
    {
      && 0 <= activeStep <= LastStep
      && DialogConsistent(Flags())
      && (isProcessing ==> |pendingConfirmations| > 0)
      && UniqueIds(selected)
    }

    /** The page as it mounts, over the bookings already in storage. */
    constructor (stored: seq<BookingRecord>)
      ensures Valid()
      ensures activeStep == 0 && data == InitialData && selected == []
      ensures Flags() == InitialFlags
      ensures pendingConfirmations == [] && pendingExits == 0
      ensures store == stored && !leftForDashboard
    {
      activeStep := 0;
      data := InitialData;
      selected := [];
      dialogOpen, isProcessing, bookingConfirmed := false, false, false;
      pendingConfirmations := [];
      pendingExits := 0;
      store := stored;
      leftForDashboard := false;
    }

    method HandleNext()
      requires Valid()
      modifies this`activeStep
      ensures Valid()
      ensures activeStep == NextStep(old(activeStep))
    {
      if activeStep < |StepLabels| - 1 {
        activeStep := activeStep + 1;
      }
    }

    method HandleBack()
      requires Valid()
      modifies this`activeStep
      ensures Valid()
      ensures activeStep == BackStep(old(activeStep))
    {
      if activeStep > 0 {
        activeStep := activeStep - 1;
      }
    }

    method ToggleService(s: Service)
      requires Valid()
      modifies this`selected
      ensures Valid()
      ensures selected == Toggled(old(selected), s)
    {
      ToggledUnique(selected, s);
      selected := Toggled(selected, s);
    }

    /** Any edit of the date, times, guest count, contact fields or notes. */
    method EditDetails(d: BookingData)
      requires Valid()
      modifies this`data
      ensures Valid()
      ensures data == d
    {
      data := d;
    }

    /**
     * "Confirm & Pay", a button drawn only on the last step: open the dialog
     * and schedule the processing callback.
     */
    method HandleBookingConfirm()
      requires Valid()
      requires activeStep == LastStep
      modifies this`dialogOpen, this`isProcessing, this`pendingConfirmations
      ensures Valid()
      ensures Flags() == OnConfirm(old(Flags()))
      ensures pendingConfirmations == old(pendingConfirmations) + [PendingConfirmation(
                data.date, TimeRange(data.startTime, data.endTime), BookingTotal(data, selected))]
    {
      dialogOpen := true;
      isProcessing := true;
      var captured := PendingConfirmation(data.date, data.startTime + " - " + data.endTime, BookingTotal(data, selected));
      pendingConfirmations := pendingConfirmations + [captured];
    }

    /**
     * The processing callback runs: the booking is confirmed, its record — with
     * `id` standing for the clock reading the page uses — goes in front of the
     * stored list, and the closing callback is scheduled.
     */
    method ProcessingElapsed(id: int)
      requires Valid()
      requires |pendingConfirmations| > 0
      modifies this`isProcessing, this`bookingConfirmed, this`pendingConfirmations, this`pendingExits, this`store
      ensures Valid()
      ensures Flags() == OnProcessed(old(Flags()))
      ensures store == Prepend(old(store), NewRecord(id, old(pendingConfirmations)[0]))
      ensures |store| == |old(store)| + 1 && store[1..] == old(store)
      ensures pendingConfirmations == old(pendingConfirmations)[1..]
      ensures pendingExits == old(pendingExits) + 1
    {
      isProcessing := false;
      bookingConfirmed := true;
      var p := pendingConfirmations[0];
      var booking := BookingRecord(id, Space, p.date, p.time, "upcoming", p.amount);
      var prev := store;
      store := [booking] + prev;
      pendingConfirmations := pendingConfirmations[1..];
      pendingExits := pendingExits + 1;
    }

    /** The closing callback runs: the dialog closes and the page leaves for the dashboard. */
    method ExitElapsed()
      requires Valid()
      requires pendingExits > 0
      modifies this`dialogOpen, this`pendingExits, this`leftForDashboard
      ensures Valid()
      ensures Flags() == OnExit(old(Flags()))
      ensures pendingExits == old(pendingExits) - 1 && leftForDashboard
    {
      dialogOpen := false;
      pendingExits := pendingExits - 1;
      leftForDashboard := true;
    }

    /**
     * The dialog's Cancel action, which exists only while it is shown. From a
     * state the page can reach it never finds itself shown, so it changes nothing.
     */
    method Cancel()
      modifies this`dialogOpen
      ensures Flags() == OnCancel(old(Flags()))
      ensures old(Valid()) ==> Valid() && dialogOpen == old(dialogOpen)
    {
      if dialogOpen && !isProcessing && !bookingConfirmed {
        dialogOpen := false;
      }
    }
  }
}
