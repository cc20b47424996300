/**
 * The add-on selection of the booking page: a list of services in the order
 * they were chosen, toggled by id. Toggling a service whose id is already in
 * the list removes every entry with that id; otherwise the service is
 * appended.
 */
module ServiceSelection {
  import opened Pricing

  /** Some selected entry has identifier `id` (the page's `find` by id). */
  predicate HasId(ss: seq<Service>, id: string)
  {
    exists k :: 0 <= k < |ss| && ss[k].id == id
  }

  /** No two entries share an identifier. */
  predicate UniqueIds(ss: seq<Service>)
  {
    forall i, j :: 0 <= i < j < |ss| ==> ss[i].id != ss[j].id
  }

  /** The entries whose identifier is not `id`, in their original order (`filter`). */
  function RemoveId(ss: seq<Service>, id: string): (r: seq<Service>)
    ensures !HasId(r, id)
    ensures forall k :: 0 <= k < |r| ==> r[k] in ss
    ensures forall k :: 0 <= k < |ss| && ss[k].id != id ==> ss[k] in r
  {
    if ss == [] then []
    else
      var rest := RemoveId(ss[..|ss| - 1], id);
      var last := ss[|ss| - 1];
      assert forall k :: 0 <= k < |ss| - 1 ==> ss[k] == ss[..|ss| - 1][k];
      if last.id == id then rest else rest + [last]
  }

  /** The selection after the user clicks `s`. */
  function Toggled(ss: seq<Service>, s: Service): (r: seq<Service>)
    ensures HasId(r, s.id) <==> !HasId(ss, s.id)
    ensures forall k :: 0 <= k < |ss| && ss[k].id != s.id ==> ss[k] in r
    ensures forall k :: 0 <= k < |r| && r[k].id != s.id ==> r[k] in ss
    ensures !HasId(ss, s.id) ==> s in r
  {
    if HasId(ss, s.id) then RemoveId(ss, s.id)
    else
      assert (ss + [s])[|ss|].id == s.id;
      ss + [s]
  }

  /** Removal keeps the surviving entries in order: it commutes with concatenation. */
  lemma {:induction false} RemoveIdAppend(a: seq<Service>, b: seq<Service>, id: string)
    ensures RemoveId(a + b, id) == RemoveId(a, id) + RemoveId(b, id)
    decreases |b|
  {
    if b == [] {
      assert a + b == a;
    } else {
      var b', last := b[..|b| - 1], b[|b| - 1];
      assert (a + b)[..|a + b| - 1] == a + b';
      assert (a + b)[|a + b| - 1] == last;
      RemoveIdAppend(a, b', id);
      assert b[..|b| - 1] == b';
      if last.id == id {
        assert RemoveId(b, id) == RemoveId(b', id);
      } else {
        assert RemoveId(b, id) == RemoveId(b', id) + [last];
      }
    }
  }

  /** Removing an identifier that is not there changes nothing. */
  lemma {:induction false} RemoveIdAbsent(ss: seq<Service>, id: string)
    requires !HasId(ss, id)
    ensures RemoveId(ss, id) == ss
    decreases |ss|
  {
    if ss != [] {
      var ss' := ss[..|ss| - 1];
      RemoveIdAbsent(ss', id);
      assert ss[|ss| - 1].id != id;
      assert ss == ss' + [ss[|ss| - 1]];
    }
  }

  /** An absent service is appended at the end. */
  lemma ToggleAbsentAppends(ss: seq<Service>, s: Service)
    requires !HasId(ss, s.id)
    ensures Toggled(ss, s) == ss + [s]
  {
  }

  /** Clicking a service that is not selected, and then clicking it again, restores the list. */
  lemma ToggleTwice(ss: seq<Service>, s: Service)
    requires !HasId(ss, s.id)
    ensures Toggled(Toggled(ss, s), s) == ss
  {
    var once := ss + [s];
    assert once[|ss|].id == s.id;
    RemoveIdAppend(ss, [s], s.id);
    RemoveIdAbsent(ss, s.id);
    assert RemoveId([s], s.id) == [] by {
      assert [s][..0] == [];
    }
  }

  /** Starting from distinct identifiers, toggling keeps them distinct. */
  lemma ToggledUnique(ss: seq<Service>, s: Service)
    requires UniqueIds(ss)
    ensures UniqueIds(Toggled(ss, s))
  {
    if HasId(ss, s.id) {
      RemoveIdUnique(ss, s.id);
    }
  }

  /** Removal keeps identifiers distinct. */
  lemma {:induction false} RemoveIdUnique(ss: seq<Service>, id: string)
    requires UniqueIds(ss)
    ensures UniqueIds(RemoveId(ss, id))
    decreases |ss|
  {
    if ss != [] {
      var ss' := ss[..|ss| - 1];
      var last := ss[|ss| - 1];
      RemoveIdUnique(ss', id);
      var rest := RemoveId(ss', id);
      if last.id != id {
        forall k | 0 <= k < |rest| ensures rest[k].id != last.id {
          var j :| 0 <= j < |ss'| && ss'[j] == rest[k];
          assert ss[j] == ss'[j];
        }
      }
    }
  }

  /**
   * Every selection reachable from the empty list by clicks has distinct
   * identifiers.
   */
  lemma {:induction false} ClicksKeepIdsUnique(clicks: seq<Service>)
    ensures UniqueIds(ApplyClicks([], clicks))
    decreases |clicks|
  {
    if clicks != [] {
      ClicksKeepIdsUnique(clicks[..|clicks| - 1]);
      ToggledUnique(ApplyClicks([], clicks[..|clicks| - 1]), clicks[|clicks| - 1]);
    }
  }

  /** The selection after a series of clicks. */
  function ApplyClicks(ss: seq<Service>, clicks: seq<Service>): (r: seq<Service>)
    decreases |clicks|
  {
    if clicks == [] then ss
    else Toggled(ApplyClicks(ss, clicks[..|clicks| - 1]), clicks[|clicks| - 1])
  }

  /** With distinct identifiers, removing the id of entry `i` removes just that entry. */
  lemma RemoveUniqueEntry(ss: seq<Service>, i: nat)
    requires UniqueIds(ss) && i < |ss|
    ensures RemoveId(ss, ss[i].id) == ss[..i] + ss[i + 1..]
  {
    var id := ss[i].id;
    var pre, post := ss[..i], ss[i + 1..];
    assert ss == pre + [ss[i]] + post;
    UniqueOthers(ss, i);
    RemoveIdAppend(pre + [ss[i]], post, id);
    RemoveIdAppend(pre, [ss[i]], id);
    assert RemoveId([ss[i]], id) == [] by {
      assert [ss[i]][..0] == [];
    }
    RemoveIdAbsent(pre, id);
    RemoveIdAbsent(post, id);
  }

  /** With distinct identifiers, no entry before or after `i` shares its id. */
  lemma UniqueOthers(ss: seq<Service>, i: nat)
    requires UniqueIds(ss) && i < |ss|
    ensures !HasId(ss[..i], ss[i].id) && !HasId(ss[i + 1..], ss[i].id)
  {
    var pre, post := ss[..i], ss[i + 1..];
    forall k | 0 <= k < |pre| ensures pre[k].id != ss[i].id {
      assert pre[k] == ss[k];
    }
    forall k | 0 <= k < |post| ensures post[k].id != ss[i].id {
      assert post[k] == ss[i + 1 + k];
    }
  }

  /** Selecting a service that is not yet selected adds exactly its cost to the services total. */
  lemma ToggleOnTotal(ss: seq<Service>, s: Service, guests: int)
    requires !HasId(ss, s.id)
    ensures ServicesTotal(Toggled(ss, s), guests) == ServicesTotal(ss, guests) + ServiceCost(s, guests)
  {
    assert (ss + [s])[..|ss|] == ss;
  }

  /**
   * With distinct identifiers, deselecting the service with `s`'s id takes
   * exactly that entry's cost off the services total.
   */
  lemma ToggleOffTotal(ss: seq<Service>, s: Service, guests: int, i: nat)
    requires UniqueIds(ss) && i < |ss| && ss[i].id == s.id
    ensures ServicesTotal(Toggled(ss, s), guests) == ServicesTotal(ss, guests) - ServiceCost(ss[i], guests)
  {
    RemoveUniqueEntry(ss, i);
    ServicesTotalRemoveAt(ss, i, guests);
  }
}
