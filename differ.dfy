/** Change detection (lib/differ.go): the all-at-once device differ and the
    component-set diff used when a device is replaced. */
module Differ {
  import opened Common
  import opened SiftTypes

  /** What the differ sends to its output channel. */
  datatype DifferEvent =
    | DeviceUpdated(id: ExternalDeviceID, newState: Device)
    | DeviceDeleted(id: ExternalDeviceID)

  /** A channel, identified by the order in which it was made; Go's nil
      channel is `None`. */
  type Chan = nat

  //
  // What one call to Consider must report
  //

  /** Devices that are new or whose state differs from the last-known one. */
  ghost function UpdatedIds(last: map<ExternalDeviceID, Device>, devices: map<ExternalDeviceID, Device>): set<ExternalDeviceID>
  {
    set id | id in devices && (id !in last || last[id] != devices[id])
  }

  /** Devices that were known and are missing from the new set. */
  ghost function DeletedIds(last: map<ExternalDeviceID, Device>, devices: map<ExternalDeviceID, Device>): set<ExternalDeviceID>
  {
    last.Keys - devices.Keys
  }

  ghost predicate DistinctIds(evs: seq<DifferEvent>)
  {
    forall i, j :: 0 <= i < j < |evs| ==> evs[i].id != evs[j].id
  }

  /** The devices a sequence of events is about. */
  ghost function Ids(evs: seq<DifferEvent>): set<ExternalDeviceID>
  {
    if evs == [] then {} else Ids(evs[..|evs| - 1]) + {evs[|evs| - 1].id}
  }

  lemma IdsSnoc(evs: seq<DifferEvent>, e: DifferEvent)
    ensures Ids(evs + [e]) == Ids(evs) + {e.id}
  {
    assert (evs + [e])[..|evs|] == evs;
  }

  lemma {:induction false} IdsIndex(evs: seq<DifferEvent>, i: nat)
    requires i < |evs|
    ensures evs[i].id in Ids(evs)
  {
    if i < |evs| - 1 {
      IdsIndex(evs[..|evs| - 1], i);
    }
  }

  lemma {:induction false} IdsWitness(evs: seq<DifferEvent>, k: ExternalDeviceID) returns (i: nat)
    requires k in Ids(evs)
    ensures i < |evs| && evs[i].id == k
  {
    if evs[|evs| - 1].id == k {
      i := |evs| - 1;
    } else {
      i := IdsWitness(evs[..|evs| - 1], k);
    }
  }

  /** `ups` and `dels` are exactly the events one Consider call emits for a
      change from `last` to `devices`, each device at most once. */
  ghost predicate IsDiff(last: map<ExternalDeviceID, Device>, devices: map<ExternalDeviceID, Device>,
                         ups: seq<DifferEvent>, dels: seq<DifferEvent>)
  {
    && (forall e :: e in ups ==> e.DeviceUpdated? && e.id in devices && e.newState == devices[e.id])
    && Ids(ups) == UpdatedIds(last, devices)
    && (forall e :: e in dels ==> e.DeviceDeleted?)
    && Ids(dels) == DeletedIds(last, devices)
    && DistinctIds(ups + dels)
  }

  /** The last-known device set after a listener has applied one event. */
  function Apply(m: map<ExternalDeviceID, Device>, e: DifferEvent): map<ExternalDeviceID, Device>
  {
    match e
    case DeviceUpdated(id, d) => m[id := d]
    case DeviceDeleted(id) => m - {id}
  }

  function ApplyAll(m: map<ExternalDeviceID, Device>, evs: seq<DifferEvent>): map<ExternalDeviceID, Device>
    decreases |evs|
  {
    if evs == [] then m else ApplyAll(Apply(m, evs[0]), evs[1..])
  }

  /** With distinct ids, each key of the replayed map is decided by its own
      event, or kept from the start when it has none. */
  lemma {:induction false} ApplyAllLookup(m: map<ExternalDeviceID, Device>, evs: seq<DifferEvent>, k: ExternalDeviceID)
    requires DistinctIds(evs)
    ensures (forall e :: e in evs ==> e.id != k) ==>
              (k in ApplyAll(m, evs) <==> k in m) && (k in m ==> ApplyAll(m, evs)[k] == m[k])
    ensures forall e :: e in evs && e.id == k && e.DeviceUpdated? ==>
              k in ApplyAll(m, evs) && ApplyAll(m, evs)[k] == e.newState
    ensures forall e :: e in evs && e.id == k && e.DeviceDeleted? ==> k !in ApplyAll(m, evs)
    decreases |evs|
  {
    if evs != [] {
      var rest := evs[1..];
      assert DistinctIds(rest) by {
        forall i, j | 0 <= i < j < |rest| ensures rest[i].id != rest[j].id {
          assert rest[i] == evs[i + 1] && rest[j] == evs[j + 1];
        }
      }
      ApplyAllLookup(Apply(m, evs[0]), rest, k);
      forall e | e in rest ensures e.id != evs[0].id {
        var j :| 0 <= j < |rest| && rest[j] == e;
        assert evs[j + 1] == e;
      }
    }
  }

  /** A listener that replays the emitted updates and then the deletes on
      the previous device set gets exactly the newly considered set. */
  lemma ReplayReconstructs(last: map<ExternalDeviceID, Device>, devices: map<ExternalDeviceID, Device>,
                           ups: seq<DifferEvent>, dels: seq<DifferEvent>)
    requires IsDiff(last, devices, ups, dels)
    ensures ApplyAll(last, ups + dels) == devices
  {
    var evs := ups + dels;
    var r := ApplyAll(last, evs);
    forall k ensures (k in r <==> k in devices) && (k in r ==> r[k] == devices[k]) {
      ApplyAllLookup(last, evs, k);
      if k in UpdatedIds(last, devices) {
        var i := IdsWitness(ups, k);
        assert ups[i] in evs;
      } else if k in DeletedIds(last, devices) {
        var i := IdsWitness(dels, k);
        assert dels[i] in evs;
      } else {
        forall e | e in evs ensures e.id != k {
          if e in ups {
            var j :| 0 <= j < |ups| && ups[j] == e;
            IdsIndex(ups, j);
          } else {
            var j :| 0 <= j < |dels| && dels[j] == e;
            IdsIndex(dels, j);
          }
        }
      }
    }
  }

  /** Considering the same set twice: the second call reports nothing. */
  lemma SameSetTwiceEmitsNothing(devices: map<ExternalDeviceID, Device>, ups: seq<DifferEvent>, dels: seq<DifferEvent>)
    requires IsDiff(devices, devices, ups, dels)
    ensures ups == [] && dels == []
  {
    assert UpdatedIds(devices, devices) == {};
  }

  //
  // What a run of Consider calls reports
  //

  /** The events of a run of Consider calls, one (updates, deletes) batch
      per call, in call order. */
  function Flatten(batches: seq<(seq<DifferEvent>, seq<DifferEvent>)>): seq<DifferEvent>
    decreases |batches|
  {
    if batches == [] then []
    else Flatten(batches[..|batches| - 1]) + batches[|batches| - 1].0 + batches[|batches| - 1].1
  }

  /** The last-known set before the i-th considered snapshot. */
  function Previous(initial: map<ExternalDeviceID, Device>, snaps: seq<map<ExternalDeviceID, Device>>, i: nat)
    : map<ExternalDeviceID, Device>
    requires i <= |snaps|
  {
    if i == 0 then initial else snaps[i - 1]
  }

  /** Batch i is exactly what considering snapshot i reports after
      snapshot i - 1 (or after `initial`, for the first). */
  ghost predicate IsDiffTrace(initial: map<ExternalDeviceID, Device>, snaps: seq<map<ExternalDeviceID, Device>>,
                              batches: seq<(seq<DifferEvent>, seq<DifferEvent>)>)
    decreases |snaps|
  {
    && |batches| == |snaps|
    && (snaps != [] ==>
          var n := |snaps| - 1;
          IsDiffTrace(initial, snaps[..n], batches[..n])
          && IsDiff(Previous(initial, snaps, n), snaps[n], batches[n].0, batches[n].1))
  }

  /** A trace extended by one more Consider call. */
  lemma DiffTraceSnoc(initial: map<ExternalDeviceID, Device>, snaps: seq<map<ExternalDeviceID, Device>>,
                      batches: seq<(seq<DifferEvent>, seq<DifferEvent>)>,
                      devices: map<ExternalDeviceID, Device>, ups: seq<DifferEvent>, dels: seq<DifferEvent>)
    requires IsDiffTrace(initial, snaps, batches)
    requires IsDiff(Previous(initial, snaps, |snaps|), devices, ups, dels)
    ensures IsDiffTrace(initial, snaps + [devices], batches + [(ups, dels)])
    ensures Flatten(batches + [(ups, dels)]) == Flatten(batches) + ups + dels
  {
    var snaps', batches' := snaps + [devices], batches + [(ups, dels)];
    assert snaps'[..|snaps|] == snaps && batches'[..|batches|] == batches;
    assert Previous(initial, snaps', |snaps|) == Previous(initial, snaps, |snaps|);
  }

  lemma {:induction false} ApplyAllAppend(m: map<ExternalDeviceID, Device>, a: seq<DifferEvent>, b: seq<DifferEvent>)
    ensures ApplyAll(m, a + b) == ApplyAll(ApplyAll(m, a), b)
    decreases |a|
  {
    if a == [] {
      assert a + b == b;
    } else {
      assert (a + b)[0] == a[0] && (a + b)[1..] == a[1..] + b;
      ApplyAllAppend(Apply(m, a[0]), a[1..], b);
    }
  }

  /** A listener that replays every event of a run, from the set known
      before the run, ends with the last snapshot considered. */
  lemma {:induction false} ReplayTrace(initial: map<ExternalDeviceID, Device>, snaps: seq<map<ExternalDeviceID, Device>>,
                                       batches: seq<(seq<DifferEvent>, seq<DifferEvent>)>)
    requires IsDiffTrace(initial, snaps, batches)
    ensures ApplyAll(initial, Flatten(batches)) == Previous(initial, snaps, |snaps|)
    decreases |snaps|
  {
    if snaps != [] {
      var n := |snaps| - 1;
      var front, last := batches[..n], batches[n];
      ReplayTrace(initial, snaps[..n], front);
      assert Previous(initial, snaps[..n], n) == Previous(initial, snaps, n);
      ReplayReconstructs(Previous(initial, snaps, n), snaps[n], last.0, last.1);
      assert Flatten(batches) == Flatten(front) + (last.0 + last.1);
      ApplyAllAppend(initial, Flatten(front), last.0 + last.1);
    }
  }

  /** Keeps the last-known device set and reports each new full snapshot as
      per-device updates and deletes. */
  class AllAtOnceDiffer {
    var lastKnownDevices: map<ExternalDeviceID, Device>
    var dest: Option<Chan>
    /** Everything put into `dest`, in order. */
    var sent: seq<DifferEvent>

    constructor ()
      ensures lastKnownDevices == map[] && dest == None && sent == []
    {
      lastKnownDevices := map[];
      dest := None;
      sent := [];
    }

    /** Sets the output channel once; a second call or a nil channel is an
        error and changes nothing. */
    method SetOutput(d: Option<Chan>) returns (err: Outcome)
      modifies this`dest
      ensures err.Pass? <==> old(dest).None? && d.Some?
      ensures dest == if err.Pass? then d else old(dest)
    {
      if dest.Some? {
        return Fail("output already set");
      }
      if d.None? {
        return Fail("destination channel cannot be nil");
      }
      dest := d;
      err := Pass;
    }

    /** Compares the full device set with the last-known one, emits an
        update for each new or changed device and then a delete for each
        vanished one; without an output channel the call is ignored. */
    method Consider(devices: map<ExternalDeviceID, Device>) returns (ups: seq<DifferEvent>, dels: seq<DifferEvent>)
      modifies this`lastKnownDevices, this`sent
      ensures dest.None? ==> ups == [] && dels == [] && lastKnownDevices == old(lastKnownDevices) && sent == old(sent)
      ensures dest.Some? ==> IsDiff(old(lastKnownDevices), devices, ups, dels)
      ensures dest.Some? ==> lastKnownDevices == devices && sent == old(sent) + ups + dels
    {
      ups, dels := [], [];
      if dest.None? {
        return;
      }
      ghost var last := lastKnownDevices;
      ups := CollectUpdates(devices);
      dels := CollectDeletes();
      assert DistinctIds(ups + dels) by {
        forall i, j | 0 <= i < j < |ups + dels| ensures (ups + dels)[i].id != (ups + dels)[j].id {
          if i < |ups| && |ups| <= j {
            IdsIndex(ups, i);
            IdsIndex(dels, j - |ups|);
          }
        }
      }
      lastKnownDevices := devices;
      Send(ups);
      Send(dels);
    }

    /** First half of Consider: the updates, removing every considered
        device from the last-known set as it goes. */
    method CollectUpdates(devices: map<ExternalDeviceID, Device>) returns (ups: seq<DifferEvent>)
      modifies this`lastKnownDevices
      ensures forall e :: e in ups ==> e.DeviceUpdated? && e.id in devices && e.newState == devices[e.id]
      ensures Ids(ups) == UpdatedIds(old(lastKnownDevices), devices)
      ensures DistinctIds(ups)
      ensures lastKnownDevices == old(lastKnownDevices) - devices.Keys
    {
      ups := [];
      ghost var last := lastKnownDevices;
      var todo := devices.Keys;
      while todo != {}
        invariant todo <= devices.Keys
        invariant lastKnownDevices == last - (devices.Keys - todo)
        invariant forall e :: e in ups ==> e.DeviceUpdated? && e.id in devices.Keys - todo && e.newState == devices[e.id]
        invariant Ids(ups) == UpdatedIds(last, devices) - todo
        invariant DistinctIds(ups)
        decreases todo
      {
        var id :| id in todo;
        var changed := id !in lastKnownDevices || lastKnownDevices[id] != devices[id];
        assert changed <==> id in UpdatedIds(last, devices);
        if changed {
          IdsSnoc(ups, DeviceUpdated(id, devices[id]));
          ups := ups + [DeviceUpdated(id, devices[id])];
        }
        lastKnownDevices := lastKnownDevices - {id};
        todo := todo - {id};
      }
    }

    /** Second half of Consider: a delete for every device still left in
        the last-known set. */
    method CollectDeletes() returns (dels: seq<DifferEvent>)
      ensures forall e :: e in dels ==> e.DeviceDeleted? && e.id in lastKnownDevices
      ensures Ids(dels) == lastKnownDevices.Keys
      ensures DistinctIds(dels)
    {
      dels := [];
      var gone := lastKnownDevices.Keys;
      while gone != {}
        invariant gone <= lastKnownDevices.Keys
        invariant forall e :: e in dels ==> e.DeviceDeleted? && e.id in lastKnownDevices.Keys - gone
        invariant Ids(dels) == lastKnownDevices.Keys - gone
        invariant DistinctIds(dels)
        decreases gone
      {
        var id :| id in gone;
        IdsSnoc(dels, DeviceDeleted(id));
        dels := dels + [DeviceDeleted(id)];
        gone := gone - {id};
      }
    }

    /** Puts the events into the output channel one by one. */
    method Send(evs: seq<DifferEvent>)
      modifies this`sent
      ensures sent == old(sent) + evs
    {
      var i := 0;
      while i < |evs|
        invariant 0 <= i <= |evs|
        invariant sent == old(sent) + evs[..i]
      {
        sent := sent + [evs[i]];
        i := i + 1;
      }
      assert evs[..i] == evs;
    }

    /** The device from the last considered set, or an error when `id` was
        not in it. */
    function GetLatest(id: ExternalDeviceID): (r: Result<Device>)
      reads this
      ensures r.Ok? <==> id in lastKnownDevices
      ensures r.Ok? ==> r.value == lastKnownDevices[id]
    {
      if id in lastKnownDevices then Ok(lastKnownDevices[id]) else Err("cannot find device with key")
    }
  }

  //
  // Component set differ
  //

  /** `upserted` holds every new or changed component with its new value,
      and `deleted` every component that disappeared with its old value. */
  ghost predicate IsComponentDiff(before: map<string, Component>, after: map<string, Component>,
                                  upserted: map<string, Component>, deleted: map<string, Component>)
  {
    && (forall id :: id in upserted <==> id in after && (id !in before || before[id] != after[id]))
    && (forall id :: id in upserted ==> upserted[id] == after[id])
    && deleted.Keys == before.Keys - after.Keys
    && (forall id :: id in deleted ==> deleted[id] == before[id])
  }

  method CopyMap(original: map<string, Component>) returns (copy: map<string, Component>)
    ensures copy == original
  {
    copy := map[];
    var todo := original.Keys;
    while todo != {}
      invariant todo <= original.Keys
      invariant copy.Keys == original.Keys - todo
      invariant forall k :: k in copy ==> copy[k] == original[k]
      decreases todo
    {
      var k :| k in todo;
      copy := copy[k := original[k]];
      todo := todo - {k};
    }
  }

  method DiffComponents(before: map<string, Component>, after: map<string, Component>)
    returns (upserted: map<string, Component>, deleted: map<string, Component>)
    ensures IsComponentDiff(before, after, upserted, deleted)
  {
    var oldCopy := CopyMap(before);
    var newCopy := CopyMap(after);
    upserted := map[];
    var todo := newCopy.Keys;
    while todo != {}
      invariant todo <= after.Keys
      invariant oldCopy == before - (after.Keys - todo)
      invariant forall id :: id in upserted <==> id in after.Keys - todo && (id !in before || before[id] != after[id])
      invariant forall id :: id in upserted ==> upserted[id] == after[id]
      decreases todo
    {
      var id :| id in todo;
      var newComponent := newCopy[id];
      if id !in oldCopy {
        upserted := upserted[id := newComponent];
      } else if newComponent != oldCopy[id] {
        upserted := upserted[id := newComponent];
      }
      oldCopy := oldCopy - {id};
      todo := todo - {id};
    }
    deleted := map[];
    var rest := oldCopy.Keys;
    while rest != {}
      invariant rest <= oldCopy.Keys
      invariant deleted.Keys == oldCopy.Keys - rest
      invariant forall id :: id in deleted ==> deleted[id] == oldCopy[id]
      decreases rest
    {
      var id :| id in rest;
      deleted := deleted[id := oldCopy[id]];
      rest := rest - {id};
    }
  }

  /** The component diff of two devices, and whether the device itself
      changed: only its name counts, `IsOnline` is ignored. */
  method DiffDevice(before: Device, after: Device)
    returns (upserted: map<string, Component>, deleted: map<string, Component>, deviceChanged: bool)
    ensures IsComponentDiff(before.components, after.components, upserted, deleted)
    ensures deviceChanged <==> before.name != after.name
  {
    upserted, deleted := DiffComponents(before.components, after.components);
    deviceChanged := before.name != after.name;
  }

  /** Applying a diff to the old components yields the new ones. */
  lemma PatchRoundTrip(before: map<string, Component>, after: map<string, Component>,
                       upserted: map<string, Component>, deleted: map<string, Component>)
    requires IsComponentDiff(before, after, upserted, deleted)
    ensures (before - deleted.Keys) + upserted == after
  {
    var r := (before - deleted.Keys) + upserted;
    forall k ensures (k in r <==> k in after) && (k in r ==> r[k] == after[k]) {
      if k in upserted {
      } else if k in after {
        assert k in before && before[k] == after[k];
      }
    }
  }

  /** Diffing against a device with no components (what the database layer
      does on every upsert) reports every component as upserted and none as
      deleted. */
  lemma DiffAgainstEmpty(after: map<string, Component>, upserted: map<string, Component>, deleted: map<string, Component>)
    requires IsComponentDiff(map[], after, upserted, deleted)
    ensures upserted == after && deleted == map[]
  {
    assert upserted.Keys == after.Keys;
  }
}
