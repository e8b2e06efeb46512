/** Notification routing (notif/notif.go, notif/components.go,
    notif/devices.go): listeners register channels with filters, and each
    posted change is delivered to the union of the matching channels. */
module Notif {
  import opened Common
  import opened SiftTypes

  /** A set of actions, one bit each; the empty mask means "all". */
  type ActionsMask = u8

  const All: ActionsMask := 0
  const Create: ActionsMask := 1
  const Update: ActionsMask := 2
  const Delete: ActionsMask := 4
  const Moved: ActionsMask := 8

  /** The capacity of every notification channel. */
  const ChanCap: nat := 100

  /** A notification channel, numbered in order of creation. */
  type Chan = nat
  type Token = string

  const ComponentsResource := "components:-unimplemented-data-type:"
  const DevicesResource := "devices:-unimplemented-data-type:"

  function MaskAnd(a: ActionsMask, b: ActionsMask): ActionsMask
  {
    ((a as bv8) & (b as bv8)) as int
  }

  /** A listener mask accepts an action when it is empty or shares a bit
      with it. */
  predicate Wants(listenerMask: ActionsMask, action: ActionsMask)
  {
    listenerMask == All || MaskAnd(listenerMask, action) != 0
  }

  datatype ComponentFilter = ComponentFilter(id: ComponentID, typ: string, actions: ActionsMask)
  datatype DeviceFilter = DeviceFilter(id: DeviceID, actions: ActionsMask)

  /** The values a listener may pass as filters. */
  datatype Filter =
    | CompFilter(c: ComponentFilter)
    | DevFilter(d: DeviceFilter)
    | StrFilter(s: string)
    | OtherFilter

  const ZeroComponentID := ComponentID("", 0)
  const EmptyComponentFilter := ComponentFilter(ZeroComponentID, "", All)

  datatype Notification =
    | ComponentNotification(cid: ComponentID, comp: Component, caction: ActionsMask)
    | DeviceNotification(did: DeviceID, dev: Device, daction: ActionsMask)

  /** parseStr: "components" is the catch-all component filter; any other
      string is nil, which no case handles. */
  function ParseStr(s: string): (r: Filter)
    ensures r == CompFilter(EmptyComponentFilter) <==> s == "components"
    ensures r != CompFilter(EmptyComponentFilter) ==> r == OtherFilter
  {
    if s == "components" then CompFilter(EmptyComponentFilter) else OtherFilter
  }

  /** A filter as Listen sees it after string parsing. */
  function Resolve(f: Filter): Filter
  {
    if f.StrFilter? then ParseStr(f.s) else f
  }

  //
  // ActionsMask.String
  //

  predicate IsSpace(c: char)
  {
    c == ' ' || c == '\t' || c == '\n' || c == '\r' || c == '\U{B}' || c == '\U{C}'
  }

  function TrimLeft(s: string): string
  {
    if s != [] && IsSpace(s[0]) then TrimLeft(s[1..]) else s
  }

  function TrimRight(s: string): string
  {
    if s != [] && IsSpace(s[|s| - 1]) then TrimRight(s[..|s| - 1]) else s
  }

  /** strings.TrimSpace: drops white space at both ends only. */
  function TrimSpace(s: string): string
  {
    TrimRight(TrimLeft(s))
  }

  /** The mask as text: the names of its set actions. */
  function MaskString(a: ActionsMask): string
  {
    var s1 := if MaskAnd(a, Create) != 0 then " create " else "";
    var s2 := if MaskAnd(a, Update) != 0 then " update " else "";
    var s3 := if MaskAnd(a, Delete) != 0 then " delete " else "";
    var s4 := if MaskAnd(a, Moved) != 0 then " moved " else "";
    TrimSpace(s1 + s2 + s3 + s4)
  }

  /** The names of the set actions, in the fixed order create, update,
      delete, moved. */
  function FlagNames(a: ActionsMask): seq<string>
  {
    (if MaskAnd(a, Create) != 0 then ["create"] else [])
    + (if MaskAnd(a, Update) != 0 then ["update"] else [])
    + (if MaskAnd(a, Delete) != 0 then ["delete"] else [])
    + (if MaskAnd(a, Moved) != 0 then ["moved"] else [])
  }

  function Join(names: seq<string>, sep: string): string
  {
    if names == [] then ""
    else if |names| == 1 then names[0]
    else names[0] + sep + Join(names[1..], sep)
  }

  /** Each name wrapped in one space on either side, as the concatenation
      in String builds it. */
  function Padded(names: seq<string>): string
  {
    if names == [] then "" else " " + names[0] + " " + Padded(names[1..])
  }

  lemma {:induction false} PaddedAppend(x: seq<string>, y: seq<string>)
    ensures Padded(x + y) == Padded(x) + Padded(y)
  {
    if x != [] {
      assert (x + y)[1..] == x[1..] + y;
      PaddedAppend(x[1..], y);
    } else {
      assert x + y == y;
    }
  }

  predicate Word(w: string)
  {
    |w| > 0 && !IsSpace(w[0]) && !IsSpace(w[|w| - 1])
  }

  /** Padding a list of words is the words joined by two spaces, with one
      more space at each end. */
  lemma {:induction false} PaddedIsJoined(names: seq<string>)
    requires names != [] && forall i :: 0 <= i < |names| ==> Word(names[i])
    ensures Padded(names) == " " + Join(names, "  ") + " "
    ensures Word(Join(names, "  "))
  {
    if |names| > 1 {
      var w, rest := names[0], Join(names[1..], "  ");
      assert Word(w);
      PaddedIsJoined(names[1..]);
      assert Join(names, "  ") == w + "  " + rest;
      assert Padded(names) == " " + w + " " + Padded(names[1..]);
      TwoWords(w, rest);
    } else {
      assert Padded(names[1..]) == "";
    }
  }

  /** A padded word followed by a padded word is the two joined by two
      spaces, padded; and that join is itself a word. */
  lemma TwoWords(w: string, rest: string)
    requires Word(w) && Word(rest)
    ensures " " + w + " " + (" " + rest + " ") == " " + (w + "  " + rest) + " "
    ensures Word(w + "  " + rest)
  {
    var j := w + "  " + rest;
    assert j[0] == w[0];
    assert j[|j| - 1] == rest[|rest| - 1];
  }

  lemma TrimPadded(w: string)
    requires Word(w)
    ensures TrimSpace(" " + w + " ") == w
  {
    var s := " " + w + " ";
    assert s[1..] == w + " ";
    assert TrimLeft(s) == TrimLeft(w + " ") == w + " ";
    assert (w + " ")[..|w|] == w;
    assert TrimRight(w + " ") == TrimRight(w) == w;
  }

  /** The concatenation String builds, for the four flag tests. */
  function Pieces(c: bool, u: bool, d: bool, m: bool): string
  {
    (if c then " create " else "") + (if u then " update " else "")
    + (if d then " delete " else "") + (if m then " moved " else "")
  }

  function Names(c: bool, u: bool, d: bool, m: bool): seq<string>
  {
    (if c then ["create"] else []) + (if u then ["update"] else [])
    + (if d then ["delete"] else []) + (if m then ["moved"] else [])
  }

  lemma PiecesArePadded(c: bool, u: bool, d: bool, m: bool)
    ensures Pieces(c, u, d, m) == Padded(Names(c, u, d, m))
  {
    var x, y, z, w := if c then ["create"] else [], if u then ["update"] else [],
                      if d then ["delete"] else [], if m then ["moved"] else [];
    PaddedAppend(x, y);
    PaddedAppend(x + y, z);
    PaddedAppend(x + y + z, w);
    PaddedWords();
  }

  lemma PaddedOne(n: string)
    ensures Padded([n]) == " " + n + " "
  {
    assert [n][1..] == [];
  }

  lemma PaddedWords()
    ensures Padded(["create"]) == " create " && Padded(["update"]) == " update "
    ensures Padded(["delete"]) == " delete " && Padded(["moved"]) == " moved "
  {
    PaddedOne("create");
    PaddedOne("update");
    PaddedOne("delete");
    PaddedOne("moved");
  }

  lemma TrimPieces(c: bool, u: bool, d: bool, m: bool)
    ensures TrimSpace(Pieces(c, u, d, m)) == Join(Names(c, u, d, m), "  ")
  {
    var names := Names(c, u, d, m);
    PiecesArePadded(c, u, d, m);
    if names != [] {
      NamesAreWords(c, u, d, m);
      PaddedIsJoined(names);
      TrimPadded(Join(names, "  "));
    }
  }

  lemma NamesAreWords(c: bool, u: bool, d: bool, m: bool)
    ensures var names := Names(c, u, d, m);
            forall i :: 0 <= i < |names| ==> Word(names[i])
  {
    var names := Names(c, u, d, m);
    assert forall i :: 0 <= i < |names| ==> names[i] in ["create", "update", "delete", "moved"];
  }

  /** String lists the set actions in order, separated by two spaces (the
      inner spaces of the concatenated pieces survive the trim), and is
      empty exactly when no action bit is set. */
  lemma MaskStringIsJoin(a: ActionsMask)
    ensures MaskString(a) == Join(FlagNames(a), "  ")
    ensures MaskString(a) == "" <==> FlagNames(a) == []
  {
    var c, u, d, m := MaskAnd(a, Create) != 0, MaskAnd(a, Update) != 0, MaskAnd(a, Delete) != 0, MaskAnd(a, Moved) != 0;
    assert MaskString(a) == TrimSpace(Pieces(c, u, d, m));
    assert FlagNames(a) == Names(c, u, d, m);
    TrimPieces(c, u, d, m);
    NamesJoinEmpty(c, u, d, m);
  }

  /** The joined names are empty exactly when no name is listed. */
  lemma NamesJoinEmpty(c: bool, u: bool, d: bool, m: bool)
    ensures Join(Names(c, u, d, m), "  ") == "" <==> Names(c, u, d, m) == []
  {
    var names := Names(c, u, d, m);
    if names != [] {
      assert |names[0]| > 0 by {
        assert names[0] in ["create", "update", "delete", "moved"];
      }
      JoinStartsWithFirst(names, "  ");
    }
  }

  lemma JoinStartsWithFirst(names: seq<string>, sep: string)
    requires names != []
    ensures |Join(names, sep)| >= |names[0]|
  {
  }

  //
  // Listener indices
  //

  /** The component indices: by component ID, by component type, and
      unfiltered; each maps a channel to its action mask. */
  datatype ComponentIndex = ComponentIndex(
    byId: map<ComponentID, map<Chan, ActionsMask>>,
    byType: map<string, map<Chan, ActionsMask>>,
    unfiltered: map<Chan, ActionsMask>)

  /** The device indices: by device ID, and unfiltered. */
  datatype DeviceIndex = DeviceIndex(
    byId: map<DeviceID, map<Chan, ActionsMask>>,
    unfiltered: map<Chan, ActionsMask>)

  /** Where a component listener can be filed. */
  datatype Place = AtId(id: ComponentID) | AtType(t: string) | AtUnfiltered

  function Bucket<K>(m: map<K, map<Chan, ActionsMask>>, k: K): map<Chan, ActionsMask>
  {
    if k in m then m[k] else map[]
  }

  /** addComponentListener on the index value: by ID when one is given
      (the type is then ignored), else by type when one is given, else
      unfiltered. */
  function AddComponentListener(idx: ComponentIndex, ch: Chan, f: ComponentFilter): ComponentIndex
  {
    if f.id != ZeroComponentID then
      idx.(byId := idx.byId[f.id := Bucket(idx.byId, f.id)[ch := f.actions]])
    else if f.typ != "" then
      idx.(byType := idx.byType[f.typ := Bucket(idx.byType, f.typ)[ch := f.actions]])
    else
      idx.(unfiltered := idx.unfiltered[ch := f.actions])
  }

  function PlaceOf(f: ComponentFilter): Place
  {
    if f.id != ZeroComponentID then AtId(f.id)
    else if f.typ != "" then AtType(f.typ)
    else AtUnfiltered
  }

  /** The mask under which `ch` is filed at place `p`, if it is. */
  function MaskAt(idx: ComponentIndex, p: Place, ch: Chan): Option<ActionsMask>
  {
    var m := match p
      case AtId(id) => Bucket(idx.byId, id)
      case AtType(t) => Bucket(idx.byType, t)
      case AtUnfiltered => idx.unfiltered;
    if ch in m then Some(m[ch]) else None
  }

  /** Every place at which `ch` is filed. */
  ghost function Places(idx: ComponentIndex, ch: Chan): set<Place>
  {
    (set id | id in idx.byId && ch in idx.byId[id] :: AtId(id))
    + (set t | t in idx.byType && ch in idx.byType[t] :: AtType(t))
    + (if ch in idx.unfiltered then {AtUnfiltered} else {})
  }

  lemma PlacesAreMasks(idx: ComponentIndex, ch: Chan, p: Place)
    ensures p in Places(idx, ch) <==> MaskAt(idx, p, ch).Some?
  {
    match p
    case AtId(id) =>
      if MaskAt(idx, p, ch).Some? { assert id in idx.byId && ch in idx.byId[id]; }
    case AtType(t) =>
      if MaskAt(idx, p, ch).Some? { assert t in idx.byType && ch in idx.byType[t]; }
    case AtUnfiltered =>
  }

  /** A new channel is filed at exactly one place, with the filter's mask. */
  lemma AddFilesOnce(idx: ComponentIndex, ch: Chan, f: ComponentFilter)
    requires Places(idx, ch) == {}
    ensures Places(AddComponentListener(idx, ch, f), ch) == {PlaceOf(f)}
    ensures MaskAt(AddComponentListener(idx, ch, f), PlaceOf(f), ch) == Some(f.actions)
  {
    var r := AddComponentListener(idx, ch, f);
    forall p ensures p in Places(r, ch) <==> p == PlaceOf(f) {
      PlacesAreMasks(r, ch, p);
      PlacesAreMasks(idx, ch, p);
    }
  }

  /** Adding a listener keeps every other filing, including those of the
      same channel at other places. */
  lemma AddKeepsOthers(idx: ComponentIndex, ch: Chan, f: ComponentFilter, c: Chan, p: Place)
    requires c != ch || p != PlaceOf(f)
    ensures MaskAt(AddComponentListener(idx, ch, f), p, c) == MaskAt(idx, p, c)
  {
  }

  /** Listen's filing of one filter: only component filters are handled. */
  function AddFilter(idx: ComponentIndex, ch: Chan, f: Filter): ComponentIndex
  {
    match Resolve(f)
    case CompFilter(cf) => AddComponentListener(idx, ch, cf)
    case _ => idx
  }

  function AddFilters(idx: ComponentIndex, ch: Chan, fs: seq<Filter>): ComponentIndex
  {
    if fs == [] then idx else AddFilter(AddFilters(idx, ch, fs[..|fs| - 1]), ch, fs[|fs| - 1])
  }

  /** Filters that are neither component filters nor the string
      "components" (device filters among them) file nothing. */
  lemma {:induction false} UnhandledFiltersFileNothing(idx: ComponentIndex, ch: Chan, fs: seq<Filter>)
    requires forall i :: 0 <= i < |fs| ==> !Resolve(fs[i]).CompFilter?
    ensures AddFilters(idx, ch, fs) == idx
  {
    if fs != [] {
      UnhandledFiltersFileNothing(idx, ch, fs[..|fs| - 1]);
    }
  }

  /** addDeviceListener on the index value: by ID when it is non-zero,
      else unfiltered. */
  function AddDeviceListener(idx: DeviceIndex, ch: Chan, f: DeviceFilter): (r: DeviceIndex)
    ensures f.id != 0 ==> r.unfiltered == idx.unfiltered && f.id in r.byId && ch in r.byId[f.id] && r.byId[f.id][ch] == f.actions
    ensures f.id != 0 ==> forall id :: id != f.id ==> Bucket(r.byId, id) == Bucket(idx.byId, id)
    ensures f.id != 0 ==> forall c :: c != ch && c in Bucket(idx.byId, f.id) ==> c in r.byId[f.id] && r.byId[f.id][c] == idx.byId[f.id][c]
    ensures f.id == 0 ==> r.byId == idx.byId && r.unfiltered == idx.unfiltered[ch := f.actions]
  {
    if f.id != 0 then
      idx.(byId := idx.byId[f.id := Bucket(idx.byId, f.id)[ch := f.actions]])
    else
      idx.(unfiltered := idx.unfiltered[ch := f.actions])
  }

  //
  // Matching
  //

  ghost function MatchingIn(m: map<Chan, ActionsMask>, action: ActionsMask): set<Chan>
  {
    set c | c in m && Wants(m[c], action)
  }

  /** The channels PostComponent considers, before authorization. */
  ghost function ComponentTargets(idx: ComponentIndex, all: map<Chan, ActionsMask>, id: ComponentID, typ: string, action: ActionsMask): set<Chan>
  {
    MatchingIn(Bucket(idx.byId, id), action) + MatchingIn(Bucket(idx.byType, typ), action)
    + MatchingIn(idx.unfiltered, action) + MatchingIn(all, action)
  }

  /** The channels PostDevice considers, before authorization; the
      by-type device index plays no part. */
  ghost function DeviceTargets(idx: DeviceIndex, all: map<Chan, ActionsMask>, id: DeviceID, action: ActionsMask): set<Chan>
  {
    MatchingIn(Bucket(idx.byId, id), action) + MatchingIn(idx.unfiltered, action) + MatchingIn(all, action)
  }

  /** A listener filed only by type hears only components of that type. */
  lemma TypeListenerHearsOnlyItsType(idx: ComponentIndex, all: map<Chan, ActionsMask>, ch: Chan, t: string,
                                     id: ComponentID, typ: string, action: ActionsMask)
    requires Places(idx, ch) == {AtType(t)} && ch !in all
    requires ch in ComponentTargets(idx, all, id, typ, action)
    ensures typ == t
  {
    PlacesAreMasks(idx, ch, AtId(id));
    PlacesAreMasks(idx, ch, AtType(typ));
    PlacesAreMasks(idx, ch, AtUnfiltered);
  }

  /** A catch-all listener with the empty mask hears every component post. */
  lemma CatchAllHearsEverything(idx: ComponentIndex, all: map<Chan, ActionsMask>, ch: Chan,
                                id: ComponentID, typ: string, action: ActionsMask)
    requires ch in all && all[ch] == All
    ensures ch in ComponentTargets(idx, all, id, typ, action)
  {
  }

  /** A channel filed nowhere hears nothing. */
  lemma UnfiledHearsNothing(idx: ComponentIndex, all: map<Chan, ActionsMask>, ch: Chan,
                            id: ComponentID, typ: string, action: ActionsMask)
    requires Places(idx, ch) == {} && ch !in all
    ensures ch !in ComponentTargets(idx, all, id, typ, action)
  {
    PlacesAreMasks(idx, ch, AtId(id));
    PlacesAreMasks(idx, ch, AtType(typ));
    PlacesAreMasks(idx, ch, AtUnfiltered);
  }

  /** Bit k of the mask is set. */
  predicate HasBit(x: ActionsMask, k: nat)
    requires k < 8
  {
    (x as bv8) & ((1 as bv8) << k) != 0
  }

  lemma NonZeroAsInt(z: bv8)
    ensures z as int != 0 <==> z != 0
  {
  }

  /** A bit set in both masks makes their conjunction non-zero. */
  lemma SharedBitMeets(m: ActionsMask, a: ActionsMask, k: nat)
    requires k < 8 && HasBit(m, k) && HasBit(a, k)
    ensures MaskAnd(m, a) != 0
  {
    NonZeroAsInt((m as bv8) & (a as bv8));
  }

  /** A non-zero conjunction has a bit set in both masks. */
  lemma MeetHasSharedBit(m: ActionsMask, a: ActionsMask) returns (k: nat)
    requires MaskAnd(m, a) != 0
    ensures k < 8 && HasBit(m, k) && HasBit(a, k)
  {
    var x, y := m as bv8, a as bv8;
    NonZeroAsInt(x & y);
    k := if x & 1 != 0 && y & 1 != 0 then 0
      else if x & 2 != 0 && y & 2 != 0 then 1
      else if x & 4 != 0 && y & 4 != 0 then 2
      else if x & 8 != 0 && y & 8 != 0 then 3
      else if x & 16 != 0 && y & 16 != 0 then 4
      else if x & 32 != 0 && y & 32 != 0 then 5
      else if x & 64 != 0 && y & 64 != 0 then 6
      else 7;
  }

  /** The mask rule, for every listener mask and action: the empty mask
      accepts everything; any other mask accepts an action exactly when some
      bit is set in both. */
  lemma MaskRule(m: ActionsMask, action: ActionsMask)
    ensures m == All ==> Wants(m, action)
    ensures m != All ==> (Wants(m, action) <==> exists k :: 0 <= k < 8 && HasBit(m, k) && HasBit(action, k))
    ensures Wants(Create, Create) && !Wants(Create, Update) && !Wants(Create, Delete) && !Wants(Create, Moved)
    ensures Wants(Create + Update, Update) && !Wants(Create + Update, Delete)
  {
    if MaskAnd(m, action) != 0 {
      var k := MeetHasSharedBit(m, action);
    }
    forall k | 0 <= k < 8 && HasBit(m, k) && HasBit(action, k)
      ensures MaskAnd(m, action) != 0
    {
      SharedBitMeets(m, action, k);
    }
  }

  /** Adds to `acc` the channels of `m` whose masks accept `action`. */
  method CollectMatching(m: map<Chan, ActionsMask>, action: ActionsMask, acc: set<Chan>) returns (r: set<Chan>)
    ensures r == acc + MatchingIn(m, action)
  {
    r := acc;
    var todo := m.Keys;
    while todo != {}
      invariant todo <= m.Keys
      invariant r == acc + MatchingIn(m - todo, action)
      decreases todo
    {
      var c :| c in todo;
      if m[c] == All || MaskAnd(m[c], action) != 0 {
        r := r + {c};
      }
      todo := todo - {c};
    }
    assert m - todo == m;
  }

  /** Queues after posting `val` to each target channel that has room;
      full channels drop it. */
  ghost function Delivered(q: map<Chan, seq<Notification>>, targets: set<Chan>, val: Notification): map<Chan, seq<Notification>>
  {
    map c | c in q :: if c in targets && |q[c]| < ChanCap then q[c] + [val] else q[c]
  }

  /** `m` is `q` with `val` appended to the buffer of each channel of
      `targets` that has room, stated channel by channel. */
  ghost predicate DeliveredTo(m: map<Chan, seq<Notification>>, q: map<Chan, seq<Notification>>,
                              targets: set<Chan>, val: Notification)
  {
    && m.Keys == q.Keys
    && forall c :: c in q ==> m[c] == if c in targets && |q[c]| < ChanCap then q[c] + [val] else q[c]
  }

  lemma DeliveredToIs(m: map<Chan, seq<Notification>>, q: map<Chan, seq<Notification>>,
                      targets: set<Chan>, val: Notification)
    requires DeliveredTo(m, q, targets, val)
    ensures m == Delivered(q, targets, val)
  {
  }

  class Notifier {
    const authorize: (Token, string) -> bool
    var nextChan: Chan
    var channelLocks: set<Chan>
    var filtersByChannel: map<Chan, seq<Filter>>
    var authTokenByChannel: map<Chan, Token>
    var allListeners: map<Chan, ActionsMask>
    var components: ComponentIndex
    var devices: DeviceIndex
    /** The buffered contents of each channel. */
    var queues: map<Chan, seq<Notification>>

    /** Every channel made so far has a lock and a buffer within capacity;
        no other channel has either. */
    ghost predicate Valid()
      reads this
    {
      && channelLocks == queues.Keys
      && (forall c :: c in queues ==> c < nextChan && |queues[c]| <= ChanCap)
    }

    constructor (authorize: (Token, string) -> bool)
      ensures Valid()
      ensures this.authorize == authorize && nextChan == 0
      ensures channelLocks == {} && filtersByChannel == map[] && authTokenByChannel == map[]
      ensures allListeners == map[] && queues == map[]
      ensures components == ComponentIndex(map[], map[], map[]) && devices == DeviceIndex(map[], map[])
    {
      this.authorize := authorize;
      nextChan := 0;
      channelLocks := {};
      filtersByChannel := map[];
      authTokenByChannel := map[];
      allListeners := map[];
      components := ComponentIndex(map[], map[], map[]);
      devices := DeviceIndex(map[], map[]);
      queues := map[];
    }

    /** The authorized channels among `chs`. */
    ghost function Authorized(chs: set<Chan>, resource: string): set<Chan>
      reads this`authTokenByChannel
    {
      set c | c in chs && c in authTokenByChannel && authorize(authTokenByChannel[c], resource)
    }

    /** Makes a fresh channel, records its token, filters and lock, and
        files it: with no filters as a catch-all listener, otherwise under
        each component filter. */
    method Listen(token: Token, filters: seq<Filter>) returns (ch: Chan)
      requires Valid()
      modifies this
      ensures Valid()
      ensures ch == old(nextChan) && ch !in old(queues) && nextChan == ch + 1
      ensures authTokenByChannel == old(authTokenByChannel)[ch := token]
      ensures filtersByChannel == old(filtersByChannel)[ch := filters]
      ensures channelLocks == old(channelLocks) + {ch} && queues == old(queues)[ch := []]
      ensures allListeners == if filters == [] then old(allListeners)[ch := All] else old(allListeners)
      ensures components == AddFilters(old(components), ch, filters)
      ensures devices == old(devices)
    {
      ch := Register(token, filters);
      FileFilters(ch, filters);
    }

    /** Makes the fresh channel and records its token, filters, lock and
        buffer; with no filters it becomes a catch-all listener. */
    method Register(token: Token, filters: seq<Filter>) returns (ch: Chan)
      requires Valid()
      modifies this`nextChan, this`authTokenByChannel, this`filtersByChannel, this`channelLocks, this`queues, this`allListeners
      ensures Valid()
      ensures ch == old(nextChan) && ch !in old(queues) && nextChan == ch + 1
      ensures authTokenByChannel == old(authTokenByChannel)[ch := token]
      ensures filtersByChannel == old(filtersByChannel)[ch := filters]
      ensures channelLocks == old(channelLocks) + {ch} && queues == old(queues)[ch := []]
      ensures allListeners == if filters == [] then old(allListeners)[ch := All] else old(allListeners)
    {
      ch := nextChan;
      nextChan := nextChan + 1;
      authTokenByChannel := authTokenByChannel[ch := token];
      filtersByChannel := filtersByChannel[ch := filters];
      channelLocks := channelLocks + {ch};
      queues := queues[ch := []];
      if |filters| == 0 {
        allListeners := allListeners[ch := All];
      }
    }

    /** Files the channel under each component filter, in order; other
        filters file nothing. */
    method FileFilters(ch: Chan, filters: seq<Filter>)
      modifies this`components
      ensures components == AddFilters(old(components), ch, filters)
    {
      var i := 0;
      while i < |filters|
        invariant 0 <= i <= |filters|
        invariant components == AddFilters(old(components), ch, filters[..i])
      {
        assert filters[..i + 1][..i] == filters[..i];
        var filter := filters[i];
        if filter.StrFilter? {
          filter := ParseStr(filter.s);
        }
        match filter {
          case CompFilter(cf) => AddComponentListenerTo(ch, cf);
          case _ =>
        }
        i := i + 1;
      }
      assert filters[..i] == filters;
    }

    /** addComponentListener. */
    method AddComponentListenerTo(ch: Chan, filter: ComponentFilter)
      modifies this`components
      ensures components == AddComponentListener(old(components), ch, filter)
    {
      if filter.id != ZeroComponentID {
        if filter.id in components.byId {
          var bucket: map<Chan, ActionsMask> := components.byId[filter.id][ch := filter.actions];
          components := components.(byId := components.byId[filter.id := bucket]);
        } else {
          components := components.(byId := components.byId[filter.id := map[ch := filter.actions]]);
        }
      } else if filter.typ != "" {
        if filter.typ in components.byType {
          var bucket: map<Chan, ActionsMask> := components.byType[filter.typ][ch := filter.actions];
          components := components.(byType := components.byType[filter.typ := bucket]);
        } else {
          components := components.(byType := components.byType[filter.typ := map[ch := filter.actions]]);
        }
      } else {
        components := components.(unfiltered := components.unfiltered[ch := filter.actions]);
      }
    }

    /** addDeviceListener. */
    method AddDeviceListenerTo(ch: Chan, filter: DeviceFilter)
      modifies this`devices
      ensures devices == AddDeviceListener(old(devices), ch, filter)
    {
      if filter.id != 0 {
        if filter.id in devices.byId {
          var bucket: map<Chan, ActionsMask> := devices.byId[filter.id][ch := filter.actions];
          devices := devices.(byId := devices.byId[filter.id := bucket]);
        } else {
          devices := devices.(byId := devices.byId[filter.id := map[ch := filter.actions]]);
        }
      } else {
        devices := devices.(unfiltered := devices.unfiltered[ch := filter.actions]);
      }
    }

    /** Enqueues `val` when the channel has a lock and room; otherwise the
        notification is dropped. It never blocks. */
    method DoPost(ch: Chan, val: Notification)
      requires Valid()
      modifies this`queues
      ensures Valid()
      ensures queues == if ch in channelLocks && |old(queues)[ch]| < ChanCap
                        then old(queues)[ch := old(queues)[ch] + [val]] else old(queues)
    {
      if ch in channelLocks {
        if |queues[ch]| < ChanCap {
          queues := queues[ch := queues[ch] + [val]];
        }
      }
    }

    /** The channels whose filters match a component change. */
    method MatchingComponentChannels(id: ComponentID, comp: Component, action: ActionsMask) returns (nchans: set<Chan>)
      ensures nchans == ComponentTargets(components, allListeners, id, comp.Type(), action)
    {
      nchans := {};
      if id in components.byId {
        nchans := CollectMatching(components.byId[id], action, nchans);
      }
      if comp.Type() in components.byType {
        nchans := CollectMatching(components.byType[comp.Type()], action, nchans);
      }
      nchans := CollectMatching(components.unfiltered, action, nchans);
      nchans := CollectMatching(allListeners, action, nchans);
    }

    /** The channels whose filters match a device change. */
    method MatchingDeviceChannels(id: DeviceID, action: ActionsMask) returns (nchans: set<Chan>)
      ensures nchans == DeviceTargets(devices, allListeners, id, action)
    {
      nchans := {};
      if id in devices.byId {
        nchans := CollectMatching(devices.byId[id], action, nchans);
      }
      nchans := CollectMatching(devices.unfiltered, action, nchans);
      nchans := CollectMatching(allListeners, action, nchans);
    }

    /** Taking one more channel out of `todo` adds it to the authorized
        channels handled exactly when it is authorized. */
    lemma AuthorizedStep(nchans: set<Chan>, todo: set<Chan>, c: Chan, resource: string)
      requires c in todo && todo <= nchans
      ensures Authorized(nchans - (todo - {c}), resource)
              == Authorized(nchans - todo, resource)
                 + (if c in authTokenByChannel && authorize(authTokenByChannel[c], resource) then {c} else {})
    {
    }

    /** Posts `val` to one more channel of the delivery to `posted`. */
    method DeliverOne(c: Chan, val: Notification, ghost q: map<Chan, seq<Notification>>, ghost posted: set<Chan>)
      requires Valid() && c !in posted && DeliveredTo(queues, q, posted, val)
      modifies this`queues
      ensures Valid() && DeliveredTo(queues, q, posted + {c}, val)
    {
      DoPost(c, val);
    }

    /** Posts `val` once to each authorized channel among `nchans`. */
    method PostToAuthorized(nchans: set<Chan>, resource: string, val: Notification)
      requires Valid()
      modifies this`queues
      ensures Valid()
      ensures queues == Delivered(old(queues), Authorized(nchans, resource), val)
    {
      var todo := nchans;
      ghost var posted: set<Chan> := {};
      while todo != {}
        invariant todo <= nchans && Valid()
        invariant posted == Authorized(nchans - todo, resource)
        invariant DeliveredTo(queues, old(queues), posted, val)
        decreases todo
      {
        var c :| c in todo;
        AuthorizedStep(nchans, todo, c, resource);
        if c in authTokenByChannel && authorize(authTokenByChannel[c], resource) {
          DeliverOne(c, val, old(queues), posted);
          posted := posted + {c};
        } else {
          assert posted + {} == posted;
        }
        todo := todo - {c};
      }
      DeliveredToIs(queues, old(queues), posted, val);
    }

    /** Notifies every matching, authorized listener of a component
        change, with the notification (id, component, action). */
    method PostComponent(id: ComponentID, comp: Component, action: ActionsMask)
      requires Valid()
      modifies this`queues
      ensures Valid()
      ensures queues == Delivered(old(queues),
                                  Authorized(ComponentTargets(components, allListeners, id, comp.Type(), action), ComponentsResource),
                                  ComponentNotification(id, comp, action))
    {
      var nchans := MatchingComponentChannels(id, comp, action);
      PostToAuthorized(nchans, ComponentsResource, ComponentNotification(id, comp, action));
    }

    /** Notifies every matching, authorized listener of a device change,
        with the notification (id, device, action). */
    method PostDevice(id: DeviceID, dev: Device, action: ActionsMask)
      requires Valid()
      modifies this`queues
      ensures Valid()
      ensures queues == Delivered(old(queues),
                                  Authorized(DeviceTargets(devices, allListeners, id, action), DevicesResource),
                                  DeviceNotification(id, dev, action))
    {
      var nchans := MatchingDeviceChannels(id, action);
      PostToAuthorized(nchans, DevicesResource, DeviceNotification(id, dev, action));
    }
  }

  /** Listen on a possibly nil notifier: nil gives a nil channel. */
  method ListenOn(n: Notifier?, token: Token, filters: seq<Filter>) returns (ch: Option<Chan>)
    requires n != null ==> n.Valid()
    modifies n
    ensures n == null <==> ch.None?
    ensures n != null ==> n.Valid() && ch == Some(old(n.nextChan))
  {
    if n == null {
      return None;
    }
    var c := n.Listen(token, filters);
    ch := Some(c);
  }
}
