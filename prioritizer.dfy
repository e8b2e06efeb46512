/** Arbitration between adapters (lib/prioritizer.go): per device, a ranked
    list of the adapters reporting on it; only the top-ranked adapter's
    updates are passed on. */
module Prioritizer {
  import opened Common
  import opened SiftTypes
  import opened Differ

  /** Controller kinds; a lower number is a higher priority. */
  const ControllerTypeZigbee: u8 := 1
  const ControllerTypeZWave: u8 := 2
  const ControllerTypeBluetooth: u8 := 3
  const ControllerTypeIPv4: u8 := 4
  const ControllerTypeAggregator: u8 := 255

  datatype AdapterDescription = AdapterDescription(typ: u8, id: string)

  /** The values an adapter may hand to Consider: a differ event, or any
      other value, which is ignored. */
  datatype Update = Event(e: DifferEvent) | OtherValue

  //
  // Ordering
  //

  /** The two comparison keys, `byType` and `byID`. */
  datatype LessFunc = ByType | ById

  const DefaultLessFuncs: seq<LessFunc> := [ByType]

  predicate LessBy(f: LessFunc, a: AdapterDescription, b: AdapterDescription)
  {
    match f
    case ByType => a.typ < b.typ
    case ById => StringLess(a.id, b.id)
  }

  /** The multi-key order: the first key that separates the two decides;
      the last key decides when all earlier ones tie. */
  predicate LexLess(fns: seq<LessFunc>, a: AdapterDescription, b: AdapterDescription)
    requires |fns| > 0
    decreases |fns|
  {
    if |fns| == 1 then LessBy(fns[0], a, b)
    else if LessBy(fns[0], a, b) then true
    else if LessBy(fns[0], b, a) then false
    else LexLess(fns[1..], a, b)
  }

  /** multiSorter.Less: tries all but the last key, then lets the last one
      decide. */
  method Less(fns: seq<LessFunc>, p: AdapterDescription, q: AdapterDescription) returns (r: bool)
    requires |fns| > 0
    ensures r == LexLess(fns, p, q)
  {
    var k := 0;
    while k < |fns| - 1
      invariant 0 <= k <= |fns| - 1
      invariant LexLess(fns, p, q) == LexLess(fns[k..], p, q)
    {
      if LessBy(fns[k], p, q) {
        return true;
      } else if LessBy(fns[k], q, p) {
        return false;
      }
      assert fns[k..][1..] == fns[k + 1..];
      k := k + 1;
    }
    r := LessBy(fns[k], p, q);
  }

  /** Two descriptions tie on a key exactly when they agree on it. */
  lemma TieBy(f: LessFunc, a: AdapterDescription, b: AdapterDescription)
    requires !LessBy(f, a, b) && !LessBy(f, b, a)
    ensures f == ByType ==> a.typ == b.typ
    ensures f == ById ==> a.id == b.id
  {
    if f == ById && a.id != b.id {
      StringLessTotal(a.id, b.id);
    }
  }

  lemma {:induction false} LexLessIrreflexive(fns: seq<LessFunc>, a: AdapterDescription)
    requires |fns| > 0
    ensures !LexLess(fns, a, a)
    decreases |fns|
  {
    StringLessIrreflexive(a.id);
    if |fns| > 1 {
      LexLessIrreflexive(fns[1..], a);
    }
  }

  lemma {:induction false} LexLessAsymmetric(fns: seq<LessFunc>, a: AdapterDescription, b: AdapterDescription)
    requires |fns| > 0 && LexLess(fns, a, b)
    ensures !LexLess(fns, b, a)
    decreases |fns|
  {
    if fns[0] == ById && StringLess(a.id, b.id) && StringLess(b.id, a.id) {
      StringLessTransitive(a.id, b.id, a.id);
      StringLessIrreflexive(a.id);
    }
    if |fns| > 1 && !LessBy(fns[0], a, b) && !LessBy(fns[0], b, a) {
      LexLessAsymmetric(fns[1..], a, b);
    }
  }

  /** Incomparability is transitive on one key: if `a` is below `c`, then
      `b` is above `a` or below `c`. */
  lemma LessByNegTransitive(f: LessFunc, a: AdapterDescription, b: AdapterDescription, c: AdapterDescription)
    requires LessBy(f, a, c)
    ensures LessBy(f, a, b) || LessBy(f, b, c)
  {
    if f == ById && !StringLess(a.id, b.id) && !StringLess(b.id, c.id) {
      if a.id != b.id { StringLessTotal(a.id, b.id); }
      if b.id != c.id { StringLessTotal(b.id, c.id); }
      if a.id != b.id && b.id != c.id {
        StringLessTransitive(c.id, b.id, a.id);
        StringLessTransitive(a.id, c.id, a.id);
      } else if a.id != b.id {
        StringLessTransitive(a.id, c.id, a.id);
      } else if b.id != c.id {
        StringLessTransitive(c.id, b.id, c.id);
      }
      StringLessIrreflexive(a.id);
      StringLessIrreflexive(c.id);
    }
  }

  /** The multi-key order is a strict weak order: together with
      irreflexivity this is the property the sort relies on. */
  lemma {:induction false} LexLessNegTransitive(fns: seq<LessFunc>, a: AdapterDescription, b: AdapterDescription, c: AdapterDescription)
    requires |fns| > 0 && LexLess(fns, a, c)
    ensures LexLess(fns, a, b) || LexLess(fns, b, c)
    decreases |fns|
  {
    var f := fns[0];
    if LessBy(f, a, c) {
      LessByNegTransitive(f, a, b, c);
      if |fns| > 1 && !LessBy(f, a, b) {
        LexLessAsymmetric([f], b, c);
      }
    } else if |fns| > 1 {
      TieBy(f, a, c);
      if !LessBy(f, a, b) && !LessBy(f, b, a) {
        TieBy(f, a, b);
        LexLessNegTransitive(fns[1..], a, b, c);
      }
    }
  }

  lemma LexLessTransitive(fns: seq<LessFunc>, a: AdapterDescription, b: AdapterDescription, c: AdapterDescription)
    requires |fns| > 0 && LexLess(fns, a, b) && LexLess(fns, b, c)
    ensures LexLess(fns, a, c)
  {
    if !LexLess(fns, a, c) {
      LexLessNegTransitive(fns, a, c, b);
      LexLessAsymmetric(fns, b, c);
    }
  }

  /** With the default key, a lower controller type ranks first. */
  lemma DefaultOrderIsByType(a: AdapterDescription, b: AdapterDescription)
    ensures LexLess(DefaultLessFuncs, a, b) <==> a.typ < b.typ
  {
  }

  /** Ordering by type and then by ID separates any two different
      descriptions. */
  lemma TypeThenIdIsTotal(a: AdapterDescription, b: AdapterDescription)
    requires a != b
    ensures LexLess([ByType, ById], a, b) || LexLess([ByType, ById], b, a)
  {
    assert [ByType, ById][1..] == [ById];
    if a.typ == b.typ {
      StringLessTotal(a.id, b.id);
    }
  }

  ghost predicate Sorted(fns: seq<LessFunc>, l: seq<AdapterDescription>)
    requires |fns| > 0
  {
    forall i, j :: 0 <= i < j < |l| ==> !LexLess(fns, l[j], l[i])
  }

  ghost predicate NoDup(l: seq<AdapterDescription>)
  {
    forall i, j :: 0 <= i < j < |l| ==> l[i] != l[j]
  }

  /** Removing one entry keeps a list sorted and free of duplicates, and
      adds no entry. */
  lemma RemoveKeepsOrder(fns: seq<LessFunc>, l: seq<AdapterDescription>, i: nat)
    requires |fns| > 0 && i < |l| && Sorted(fns, l) && NoDup(l)
    ensures var r := l[..i] + l[i + 1..];
            Sorted(fns, r) && NoDup(r) && forall x :: x in r ==> x in l
  {
    var r := l[..i] + l[i + 1..];
    forall x, y | 0 <= x < y < |r| ensures !LexLess(fns, r[y], r[x]) && r[x] != r[y] {
      var x', y' := if x < i then x else x + 1, if y < i then y else y + 1;
      assert r[x] == l[x'] && r[y] == l[y'];
    }
    forall x | x in r ensures x in l {
      var k :| 0 <= k < |r| && r[k] == x;
      assert l[if k < i then k else k + 1] == x;
    }
  }

  /** Appending `ad` to a sorted list and sorting it again: the insertion
      pass moves `ad` left past every entry ranked strictly below it. */
  method InsertRanked(fns: seq<LessFunc>, l: seq<AdapterDescription>, ad: AdapterDescription)
    returns (r: seq<AdapterDescription>)
    requires |fns| > 0 && Sorted(fns, l)
    ensures Sorted(fns, r)
    ensures multiset(r) == multiset(l) + multiset{ad}
    ensures NoDup(l) && ad !in l ==> NoDup(r)
  {
    var j := |l|;
    r := l + [ad];
    var moving := true;
    while moving && j > 0
      invariant 0 <= j <= |l|
      invariant r == l[..j] + [ad] + l[j..]
      invariant forall k :: j <= k < |l| ==> LexLess(fns, ad, l[k])
      invariant !moving ==> j == 0 || !LexLess(fns, ad, l[j - 1])
      decreases j, moving
    {
      InsertedAt(l, ad, j);
      var less := Less(fns, r[j], r[j - 1]);
      if less {
        r := l[..j - 1] + [ad] + l[j - 1..];
        j := j - 1;
      } else {
        moving := false;
      }
    }
    InsertKeepsSorted(fns, l, ad, j);
    InsertKeepsNoDup(l, ad, j);
    InsertIsPermutation(l, ad, j);
  }

  lemma InsertedAt(l: seq<AdapterDescription>, ad: AdapterDescription, j: nat)
    requires 0 < j <= |l|
    ensures (l[..j] + [ad] + l[j..])[j] == ad && (l[..j] + [ad] + l[j..])[j - 1] == l[j - 1]
  {
  }

  lemma InsertIsPermutation(l: seq<AdapterDescription>, ad: AdapterDescription, j: nat)
    requires j <= |l|
    ensures multiset(l[..j] + [ad] + l[j..]) == multiset(l) + multiset{ad}
  {
    assert l == l[..j] + l[j..];
  }

  lemma InsertKeepsSorted(fns: seq<LessFunc>, l: seq<AdapterDescription>, ad: AdapterDescription, j: nat)
    requires |fns| > 0 && Sorted(fns, l) && j <= |l|
    requires forall k :: j <= k < |l| ==> LexLess(fns, ad, l[k])
    requires j == 0 || !LexLess(fns, ad, l[j - 1])
    ensures Sorted(fns, l[..j] + [ad] + l[j..])
  {
    var r := l[..j] + [ad] + l[j..];
    forall x, y | 0 <= x < y < |r| ensures !LexLess(fns, r[y], r[x]) {
      InsertedPairOrdered(fns, l, ad, j, x, y);
    }
  }

  lemma InsertedPairOrdered(fns: seq<LessFunc>, l: seq<AdapterDescription>, ad: AdapterDescription, j: nat, x: nat, y: nat)
    requires |fns| > 0 && Sorted(fns, l) && j <= |l| && x < y <= |l|
    requires forall k :: j <= k < |l| ==> LexLess(fns, ad, l[k])
    requires j == 0 || !LexLess(fns, ad, l[j - 1])
    ensures var r := l[..j] + [ad] + l[j..];
            !LexLess(fns, r[y], r[x])
  {
    if x != j && y != j {
      PairAroundInserted(fns, l, ad, j, x, y);
    } else if x == j {
      PairFromInserted(fns, l, ad, j, y);
    } else {
      PairToInserted(fns, l, ad, j, x);
    }
  }

  /** Two entries of the old list keep their order around the insertion. */
  lemma PairAroundInserted(fns: seq<LessFunc>, l: seq<AdapterDescription>, ad: AdapterDescription, j: nat, x: nat, y: nat)
    requires |fns| > 0 && Sorted(fns, l) && j <= |l| && x < y <= |l| && x != j && y != j
    ensures var r := l[..j] + [ad] + l[j..];
            !LexLess(fns, r[y], r[x])
  {
    var x', y' := if x < j then x else x - 1, if y < j then y else y - 1;
    InsertedIndex(l, ad, j, x);
    InsertedIndex(l, ad, j, y);
    assert !LexLess(fns, l[y'], l[x']);
  }

  /** Where an old entry sits once `ad` is inserted at j. */
  lemma InsertedIndex(l: seq<AdapterDescription>, ad: AdapterDescription, j: nat, x: nat)
    requires j <= |l| && x <= |l| && x != j
    ensures (l[..j] + [ad] + l[j..])[x] == l[if x < j then x else x - 1]
  {
  }

  /** The entries after the inserted one are ranked strictly below it. */
  lemma PairFromInserted(fns: seq<LessFunc>, l: seq<AdapterDescription>, ad: AdapterDescription, j: nat, y: nat)
    requires |fns| > 0 && j < y <= |l|
    requires forall k :: j <= k < |l| ==> LexLess(fns, ad, l[k])
    ensures var r := l[..j] + [ad] + l[j..];
            !LexLess(fns, r[y], r[j])
  {
    var r := l[..j] + [ad] + l[j..];
    assert r[j] == ad && r[y] == l[y - 1];
    AfterInserted(fns, ad, l[y - 1]);
  }

  /** The entries before the inserted one are not ranked below it. */
  lemma PairToInserted(fns: seq<LessFunc>, l: seq<AdapterDescription>, ad: AdapterDescription, j: nat, x: nat)
    requires |fns| > 0 && Sorted(fns, l) && x < j <= |l|
    requires !LexLess(fns, ad, l[j - 1])
    ensures var r := l[..j] + [ad] + l[j..];
            !LexLess(fns, r[j], r[x])
  {
    var r := l[..j] + [ad] + l[j..];
    assert r[x] == l[x] && r[j] == ad;
    if x < j - 1 {
      assert !LexLess(fns, l[j - 1], l[x]);
      BeforeInserted(fns, ad, l[j - 1], l[x]);
    }
  }

  /** An entry ranked strictly below the inserted one is not above it. */
  lemma AfterInserted(fns: seq<LessFunc>, ad: AdapterDescription, b: AdapterDescription)
    requires |fns| > 0 && LexLess(fns, ad, b)
    ensures !LexLess(fns, b, ad)
  {
    LexLessAsymmetric(fns, ad, b);
  }

  /** An entry not below the one the insertion stopped at is not below
      the inserted one either. */
  lemma BeforeInserted(fns: seq<LessFunc>, ad: AdapterDescription, stop: AdapterDescription, a: AdapterDescription)
    requires |fns| > 0 && !LexLess(fns, ad, stop) && !LexLess(fns, stop, a)
    ensures !LexLess(fns, ad, a)
  {
    if LexLess(fns, ad, a) {
      LexLessNegTransitive(fns, ad, stop, a);
    }
  }

  lemma InsertKeepsNoDup(l: seq<AdapterDescription>, ad: AdapterDescription, j: nat)
    requires j <= |l|
    ensures NoDup(l) && ad !in l ==> NoDup(l[..j] + [ad] + l[j..])
  {
    var r := l[..j] + [ad] + l[j..];
    if NoDup(l) && ad !in l {
      forall x, y | 0 <= x < y < |r| ensures r[x] != r[y] {
        if x != j && y != j {
          var x', y' := if x < j then x else x - 1, if y < j then y else y - 1;
          assert r[x] == l[x'] && r[y] == l[y'];
        } else if x == j {
          assert r[y] == l[y - 1];
        } else {
          assert r[x] == l[x];
        }
      }
    }
  }

  /** The first index holding `ad`, or the length when there is none. */
  method FindIndex(l: seq<AdapterDescription>, ad: AdapterDescription) returns (i: nat)
    ensures i <= |l|
    ensures i < |l| ==> l[i] == ad
    ensures forall k :: 0 <= k < i ==> l[k] != ad
  {
    i := 0;
    while i < |l| && l[i] != ad
      invariant 0 <= i <= |l|
      invariant forall k :: 0 <= k < i ==> l[k] != ad
    {
      i := i + 1;
    }
  }

  /** Every ranked list is ordered by the less-functions, names each
      adapter at most once, and holds only adapters with an ID. */
  ghost predicate ValidRanking(fns: seq<LessFunc>, ranked: map<ExternalDeviceID, seq<AdapterDescription>>)
    requires |fns| > 0
  {
    && (forall id :: id in ranked ==> Sorted(fns, ranked[id]) && NoDup(ranked[id]))
    && (forall id, ad :: id in ranked && ad in ranked[id] ==> ad.id != "")
  }

  /** Replacing one device's list by a list that keeps the same three
      properties keeps the whole ranking valid. */
  lemma ValidRankingSet(fns: seq<LessFunc>, ranked: map<ExternalDeviceID, seq<AdapterDescription>>,
                        id: ExternalDeviceID, r: seq<AdapterDescription>)
    requires |fns| > 0 && ValidRanking(fns, ranked)
    requires Sorted(fns, r) && NoDup(r) && forall x :: x in r ==> x.id != ""
    ensures ValidRanking(fns, ranked[id := r])
  {
  }

  /** The lists ranked for a device, read from a valid ranking. */
  lemma ValidRankingAt(fns: seq<LessFunc>, ranked: map<ExternalDeviceID, seq<AdapterDescription>>, id: ExternalDeviceID)
    requires |fns| > 0 && ValidRanking(fns, ranked) && id in ranked
    ensures Sorted(fns, ranked[id]) && NoDup(ranked[id]) && forall x :: x in ranked[id] ==> x.id != ""
  {
  }

  class Prioritizer {
    var dest: Option<Chan>
    var sortFns: seq<LessFunc>
    var ranked: map<ExternalDeviceID, seq<AdapterDescription>>
    /** Everything put into `dest`, in order. */
    var sent: seq<DifferEvent>

    /** Every ranked list is ordered by the less-functions, names each
        adapter at most once, and holds only adapters with an ID. */
    ghost predicate Valid()
      reads this
    {
      |sortFns| > 0 && ValidRanking(sortFns, ranked)
    }

    /** NewPrioritizer: no less-functions means the default (by type). */
    constructor (fns: Option<seq<LessFunc>>, d: Chan)
      requires fns.Some? ==> |fns.value| > 0
      ensures Valid()
      ensures sortFns == if fns.None? then DefaultLessFuncs else fns.value
      ensures dest == Some(d) && ranked == map[] && sent == []
    {
      sortFns := if fns.None? then DefaultLessFuncs else fns.value;
      dest := Some(d);
      ranked := map[];
      sent := [];
    }

    /** Evaluates an adapter's update: passes it on when the adapter is the
        top-ranked one for the device. An empty adapter ID is an error; with
        no output channel, or for any other kind of value, nothing happens. */
    method Consider(ad: AdapterDescription, update: Update) returns (err: Outcome, forwarded: bool)
      requires Valid()
      modifies this`ranked, this`sent
      ensures Valid()
      ensures err.Fail? <==> ad.id == ""
      ensures err.Fail? || dest.None? || update.OtherValue? ==>
                !forwarded && ranked == old(ranked) && sent == old(sent)
      ensures sent == old(sent) + (if forwarded then [update.e] else [])
      ensures err.Pass? && dest.Some? && update.Event? && update.e.DeviceUpdated? ==>
                var id := update.e.id;
                && id in ranked
                && ranked == old(ranked)[id := ranked[id]]
                && ad in ranked[id]
                && (forwarded <==> ranked[id][0] == ad)
                && (id in old(ranked) && ad in old(ranked)[id] ==> ranked == old(ranked))
                && (!(id in old(ranked) && ad in old(ranked)[id]) ==>
                      multiset(ranked[id]) == multiset(if id in old(ranked) then old(ranked)[id] else []) + multiset{ad})
                && (id in old(ranked) && |old(ranked)[id]| > 0 && old(ranked)[id][0] == ad ==> forwarded)
      ensures err.Pass? && dest.Some? && update.Event? && update.e.DeviceDeleted? ==>
                var id := update.e.id;
                if id in old(ranked) && ad in old(ranked)[id] then
                  var i := IndexOf(old(ranked)[id], ad);
                  ranked == old(ranked)[id := old(ranked)[id][..i] + old(ranked)[id][i + 1..]]
                  && (forwarded <==> i == 0)
                else ranked == old(ranked) && !forwarded
    {
      forwarded := false;
      if ad.id == "" {
        return Fail("adapter description must contain non-empty ID"), false;
      }
      err := Pass;
      if dest.None? {
        return;
      }
      if update.Event? {
        forwarded := Rank(ad, update.e);
        if forwarded {
          sent := sent + [update.e];
        }
      }
    }

    /** Registers or unregisters `ad` for the event's device, and reports
        whether the event is to be passed on. */
    method Rank(ad: AdapterDescription, e: DifferEvent) returns (forwarded: bool)
      requires Valid() && ad.id != ""
      modifies this`ranked
      ensures Valid()
      ensures e.DeviceUpdated? ==>
                && e.id in ranked
                && ranked == old(ranked)[e.id := ranked[e.id]]
                && ad in ranked[e.id]
                && (forwarded <==> ranked[e.id][0] == ad)
                && (e.id in old(ranked) && ad in old(ranked)[e.id] ==> ranked == old(ranked))
                && (!(e.id in old(ranked) && ad in old(ranked)[e.id]) ==>
                      multiset(ranked[e.id]) == multiset(if e.id in old(ranked) then old(ranked)[e.id] else []) + multiset{ad})
                && (e.id in old(ranked) && |old(ranked)[e.id]| > 0 && old(ranked)[e.id][0] == ad ==> forwarded)
      ensures e.DeviceDeleted? ==>
                if e.id in old(ranked) && ad in old(ranked)[e.id] then
                  var i := IndexOf(old(ranked)[e.id], ad);
                  ranked == old(ranked)[e.id := old(ranked)[e.id][..i] + old(ranked)[e.id][i + 1..]]
                  && (forwarded <==> i == 0)
                else ranked == old(ranked) && !forwarded
    {
      if e.DeviceUpdated? {
        forwarded := IsHighestPriorityUpdate(ad, e.id);
      } else {
        forwarded := IsHighestPriorityDelete(ad, e.id);
      }
    }

    /** Registers `ad` for the device if it is not yet ranked there, and
        reports whether it is now the top-ranked adapter. */
    method IsHighestPriorityUpdate(ad: AdapterDescription, id: ExternalDeviceID) returns (top: bool)
      requires Valid() && ad.id != ""
      modifies this`ranked
      ensures Valid()
      ensures id in ranked && ranked == old(ranked)[id := ranked[id]]
      ensures id in old(ranked) && ad in old(ranked)[id] ==> ranked == old(ranked)
      ensures !(id in old(ranked) && ad in old(ranked)[id]) ==>
                multiset(ranked[id]) == multiset(if id in old(ranked) then old(ranked)[id] else []) + multiset{ad}
      ensures ad in ranked[id]
      ensures top <==> ranked[id][0] == ad
      ensures id in old(ranked) && |old(ranked)[id]| > 0 && old(ranked)[id][0] == ad ==> top
    {
      if id !in ranked {
        ranked := ranked[id := [ad]];
      } else {
        var l := ranked[id];
        ValidRankingAt(sortFns, ranked, id);
        var i := FindIndex(l, ad);
        if i == |l| {
          var r := InsertRanked(sortFns, l, ad);
          InsertedHaveIds(l, r, ad);
          ValidRankingSet(sortFns, ranked, id, r);
          ranked := ranked[id := r];
        }
      }
      assert ad in multiset(ranked[id]);
      top := ranked[id][0] == ad;
    }

    /** Unregisters `ad` from the device, keeping the order of the others,
        and reports whether it was the top-ranked adapter. */
    method IsHighestPriorityDelete(ad: AdapterDescription, id: ExternalDeviceID) returns (top: bool)
      requires Valid()
      modifies this`ranked
      ensures Valid()
      ensures if id in old(ranked) && ad in old(ranked)[id] then
                var i := IndexOf(old(ranked)[id], ad);
                ranked == old(ranked)[id := old(ranked)[id][..i] + old(ranked)[id][i + 1..]]
                && (top <==> i == 0)
              else ranked == old(ranked) && !top
    {
      top := false;
      if id in ranked {
        var l := ranked[id];
        ValidRankingAt(sortFns, ranked, id);
        var i := FindIndex(l, ad);
        if i < |l| && l[i] == ad {
          IndexOfFirst(l, ad, i);
          var r := l[..i] + l[i + 1..];
          RemoveKeepsOrder(sortFns, l, i);
          ValidRankingSet(sortFns, ranked, id, r);
          ranked := ranked[id := r];
          top := i == 0;
        }
      }
    }

    /** The ID of the top-ranked adapter for the device, or "" when none is
        ranked. */
    function GetHighestPriorityAdapterForDevice(id: ExternalDeviceID): (r: string)
      requires Valid()
      reads this
      ensures r == "" <==> id !in ranked || ranked[id] == []
      ensures r != "" ==> r == ranked[id][0].id
    {
      if id in ranked && |ranked[id]| > 0 then ranked[id][0].id else ""
    }
  }

  /** After the insertion every adapter of the list still has an ID. */
  lemma InsertedHaveIds(l: seq<AdapterDescription>, r: seq<AdapterDescription>, ad: AdapterDescription)
    requires multiset(r) == multiset(l) + multiset{ad}
    requires ad.id != "" && forall x :: x in l ==> x.id != ""
    ensures ad in r && forall x :: x in r ==> x.id != ""
  {
    assert ad in multiset(r);
    forall x | x in r ensures x.id != "" {
      assert x in multiset(r);
      if x != ad { assert x in multiset(l); }
    }
  }

  /** The first index at which `ad` occurs. */
  function IndexOf(l: seq<AdapterDescription>, ad: AdapterDescription): (i: nat)
    requires ad in l
    ensures i < |l| && l[i] == ad
    ensures forall k :: 0 <= k < i ==> l[k] != ad
  {
    if l[0] == ad then 0 else 1 + IndexOf(l[1..], ad)
  }

  lemma IndexOfFirst(l: seq<AdapterDescription>, ad: AdapterDescription, i: nat)
    requires i < |l| && l[i] == ad && forall k :: 0 <= k < i ==> l[k] != ad
    ensures IndexOf(l, ad) == i
  {
    var j := IndexOf(l, ad);
    assert !(j < i) && !(i < j);
  }
}
