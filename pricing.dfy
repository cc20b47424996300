/**
 * The booking page's price calculator: the length of the booked slot in
 * hours, the space's hourly rate times that length, and the add-on services,
 * of which catering is charged per guest and every other category once.
 * Hours and totals are exact reals; None stands for JavaScript's NaN, which is
 * what the page computes when a time cannot be parsed.
 */
module Pricing {
  import opened Opt
  import opened Clock

  /** The add-on categories of the service catalogue. */
  datatype Category = Cleaning | Security | Equipment | Catering

  /** An add-on service as the booking page selects it. */
  datatype Service = Service(id: string, name: string, provider: string, price: int, category: Category)

  /** What one selected service adds to the bill for `guests` guests. */
  function ServiceCost(s: Service, guests: int): (c: int)
    ensures s.category == Catering ==> c == s.price * guests
    ensures s.category != Catering ==> c == s.price
  {
    if s.category == Catering then s.price * guests else s.price
  }

  /** The sum of the service costs, folded from the left as `reduce` does. */
  function ServicesTotal(ss: seq<Service>, guests: int): (t: int)
    ensures (forall k :: 0 <= k < |ss| ==> ServiceCost(ss[k], guests) >= 0) ==> t >= 0
  {
    if ss == [] then 0
    else ServicesTotal(ss[..|ss| - 1], guests) + ServiceCost(ss[|ss| - 1], guests)
  }

  /**
   * The length of the slot from `start` to `end` in hours: 0 when either is
   * empty, None (NaN) when a non-empty one is not a time, and otherwise
   * (end - start) on one nominal day, which is zero or negative when the end is
   * not after the start.
   */
  function Hours(start: string, end: string): (h: Option<real>)
    ensures start == [] || end == [] ==> h == Some(0.0)
    ensures start != [] && end != [] ==>
              (h.Some? <==> ParseClock(start).Some? && ParseClock(end).Some?)
    ensures start != [] && end != [] && h.Some? ==>
              h.value == (ParseClock(end).value as int - ParseClock(start).value as int) as real / 60.0
  {
    if start == [] || end == [] then Some(0.0)
    else match (ParseClock(start), ParseClock(end))
      case (Some(a), Some(b)) => Some((b as int - a as int) as real / 60.0)
      case _ => None
  }

  /** The booking total: rate times hours plus the services; NaN when the hours are. */
  function Total(basePrice: int, start: string, end: string, guests: int, ss: seq<Service>): (r: Option<real>)
    ensures r.Some? <==> Hours(start, end).Some?
  {
    var h := Hours(start, end);
    if h.Some? then Some(basePrice as real * h.value + ServicesTotal(ss, guests) as real) else None
  }

  /** The services total of a concatenation is the sum of the two totals. */
  lemma {:induction false} ServicesTotalAppend(a: seq<Service>, b: seq<Service>, guests: int)
    ensures ServicesTotal(a + b, guests) == ServicesTotal(a, guests) + ServicesTotal(b, guests)
    decreases |b|
  {
    if b == [] {
      assert a + b == a;
    } else {
      var b' := b[..|b| - 1];
      assert (a + b)[..|a + b| - 1] == a + b';
      ServicesTotalAppend(a, b', guests);
    }
  }

  /** The services total does not depend on the order in which they were selected. */
  lemma {:induction false} ServicesTotalPermutation(a: seq<Service>, b: seq<Service>, guests: int)
    requires multiset(a) == multiset(b)
    ensures ServicesTotal(a, guests) == ServicesTotal(b, guests)
    decreases |a|
  {
    if a == [] {
      assert |b| == |multiset(b)| == 0;
    } else {
      var x := a[|a| - 1];
      var a' := a[..|a| - 1];
      assert a == a' + [x];
      assert x in multiset(b);
      var i :| 0 <= i < |b| && b[i] == x;
      var b' := b[..i] + b[i + 1..];
      assert b == b[..i] + [x] + b[i + 1..];
      assert multiset(a') == multiset(b') by {
        assert multiset(a') == multiset(a) - multiset{x};
        assert multiset(b) == multiset(b[..i]) + multiset{x} + multiset(b[i + 1..]);
      }
      ServicesTotalPermutation(a', b', guests);
      ServicesTotalRemoveAt(b, i, guests);
    }
  }

  /** Taking the service at position `i` out of a selection subtracts its cost. */
  lemma ServicesTotalRemoveAt(b: seq<Service>, i: nat, guests: int)
    requires i < |b|
    ensures ServicesTotal(b, guests) == ServicesTotal(b[..i] + b[i + 1..], guests) + ServiceCost(b[i], guests)
  {
    assert b == (b[..i] + [b[i]]) + b[i + 1..];
    ServicesTotalAppend(b[..i] + [b[i]], b[i + 1..], guests);
    assert (b[..i] + [b[i]])[..i] == b[..i];
    ServicesTotalAppend(b[..i], b[i + 1..], guests);
  }

  /** Hence the whole booking total does not depend on the selection order either. */
  lemma TotalPermutation(basePrice: int, start: string, end: string, guests: int, a: seq<Service>, b: seq<Service>)
    requires multiset(a) == multiset(b)
    ensures Total(basePrice, start, end, guests, a) == Total(basePrice, start, end, guests, b)
  {
    ServicesTotalPermutation(a, b, guests);
  }

  /** Selecting one more service adds exactly its cost to the total. */
  lemma TotalAddService(basePrice: int, start: string, end: string, guests: int, ss: seq<Service>, s: Service)
    requires Hours(start, end).Some?
    ensures Total(basePrice, start, end, guests, ss + [s]).value
            == Total(basePrice, start, end, guests, ss).value + ServiceCost(s, guests) as real
  {
    assert (ss + [s])[..|ss|] == ss;
  }

  /**
   * The total is the rate times the hours plus the sum of the service costs,
   * and NaN exactly when the hours are.
   */
  lemma TotalDecomposition(basePrice: int, start: string, end: string, guests: int, ss: seq<Service>)
    ensures Total(basePrice, start, end, guests, ss).Some? <==> Hours(start, end).Some?
    ensures Hours(start, end).Some? ==>
              Total(basePrice, start, end, guests, ss).value
              == basePrice as real * Hours(start, end).value + ServicesTotal(ss, guests) as real
  {
  }

  /** Between two clock texts the slot lasts (end - start) minutes, in hours. */
  lemma HoursOfClockTexts(a: nat, b: nat)
    requires a < MinutesPerDay && b < MinutesPerDay
    ensures Hours(ClockText(a), ClockText(b)) == Some((b - a) as real / 60.0)
    ensures Hours(ClockText(a), ClockText(b)).value > 0.0 <==> a < b
  {
    ParseClockText(a);
    ParseClockText(b);
  }
}
