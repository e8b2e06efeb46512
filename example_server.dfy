/** The example backend server (drivers/example/server.go): an in-memory
    store of devices in the server's own format, the JSON form of its
    components, and the status codes of its HTTP handlers. The notify
    channel is a count of the signals sent on it; HTTP transport, routing
    and pretty-printing are not part of this model. */
module ExampleServer {
  import opened Common
  import opened Json

  const ServerTypeAllAtOnce := "all_at_once"
  const DefaultPort: u16 := 10203
  const ComponentTypeLight := "light"
  const ComponentTypeLock := "lock"

  const StatusOK := 200
  const StatusSeeOther := 303
  const StatusBadRequest := 400
  const StatusNotFound := 404

  /** A component in the server's format. */
  datatype ServerComponent =
    | Light(isOn: bool, outputInPercent: u8)
    | Lock(isOpen: bool)
  {
    function GetType(): string
    {
      if Light? then ComponentTypeLight else ComponentTypeLock
    }
  }

  /** A device in the server's format; `None` is a nil component map. */
  datatype ServerDevice = ServerDevice(components: Option<map<string, ServerComponent>>)

  // ---------------------------------------------------------------------
  // JSON form

  /** A light's JSON: `is_on` and `output_in_percent` are omitted when zero,
      and the type tag is always present. */
  function LightToJson(isOn: bool, outputInPercent: u8): Json
  {
    JObj((if isOn then [Member("is_on", JBool(true))] else [])
         + (if outputInPercent != 0 then [Member("output_in_percent", JNum(outputInPercent))] else [])
         + [Member("Type", JStr(ComponentTypeLight))])
  }

  function LockToJson(isOpen: bool): Json
  {
    JObj([Member("is_open", JBool(isOpen)), Member("Type", JStr(ComponentTypeLock))])
  }

  function ComponentToJson(c: ServerComponent): Json
  {
    match c
    case Light(isOn, out) => LightToJson(isOn, out)
    case Lock(isOpen) => LockToJson(isOpen)
  }

  /** Decodes a component: reads the `Type` member first, then decodes the
      same document as a light or a lock; any other type is an error. */
  function ComponentFromJson(j: Json): (r: Result<ServerComponent>)
    ensures r.Ok? ==> StructMembers(j).Ok? && StringField(StructMembers(j).value, "Type") == Ok(r.value.GetType())
    ensures (StructMembers(j).Ok? && StringField(StructMembers(j).value, "Type").Ok?
             && StringField(StructMembers(j).value, "Type").value !in {ComponentTypeLight, ComponentTypeLock})
            ==> r.Err?
  {
    match StructMembers(j)
    case Err(e) => Err(e)
    case Ok(ms) =>
      match StringField(ms, "Type")
      case Err(e) => Err(e)
      case Ok(t) =>
        if t == ComponentTypeLight then
          match (BoolField(ms, "is_on"), U8Field(ms, "output_in_percent"))
          case (Ok(isOn), Ok(out)) => Ok(Light(isOn, out))
          case _ => Err("cannot unmarshal into Light")
        else if t == ComponentTypeLock then
          match BoolField(ms, "is_open")
          case Ok(isOpen) => Ok(Lock(isOpen))
          case _ => Err("cannot unmarshal into Lock")
        else Err("unknown type " + t)
  }

  /** Decoding a Go map from an object's members: a later duplicate key
      replaces an earlier one. */
  function MembersToMap(ms: seq<Member>): map<string, Json>
    decreases |ms|
  {
    if ms == [] then map[]
    else MembersToMap(ms[..|ms| - 1])[ms[|ms| - 1].key := ms[|ms| - 1].value]
  }

  predicate DistinctKeys(ms: seq<Member>)
  {
    forall i, j :: 0 <= i < j < |ms| ==> ms[i].key != ms[j].key
  }

  lemma {:induction false} MembersToMapDistinct(ms: seq<Member>)
    requires DistinctKeys(ms)
    ensures MembersToMap(ms).Keys == set m | m in ms :: m.key
    ensures forall i :: 0 <= i < |ms| ==> MembersToMap(ms)[ms[i].key] == ms[i].value
    decreases |ms|
  {
    if ms != [] {
      var init := ms[..|ms| - 1];
      MembersToMapDistinct(init);
      assert ms == init + [ms[|ms| - 1]];
      assert forall m :: m in ms <==> m in init || m == ms[|ms| - 1];
      forall i | 0 <= i < |ms|
        ensures MembersToMap(ms)[ms[i].key] == ms[i].value
      {
        if i < |ms| - 1 {
          assert init[i] == ms[i];
        }
      }
    }
  }

  /** Decodes a device: every `Components` member must be an object or
      null; the objects after the last null merge into the raw component
      map (none at all giving no components), every entry of which must
      decode as a component. */
  function DeviceFromJson(j: Json): (r: Result<ServerDevice>)
    ensures r.Ok? ==> r.value.components.Some?
  {
    match StructMembers(j)
    case Err(e) => Err(e)
    case Ok(ms) =>
      match MapField(ms, "Components")
      case Err(e) => Err(e)
      case Ok(raw) =>
        match ComponentsFromMap(MembersToMap(raw))
        case Err(e) => Err(e)
        case Ok(comps) => Ok(ServerDevice(Some(comps)))
  }

  /** Decodes every raw component of a device; one failure fails all. */
  function ComponentsFromMap(raw: map<string, Json>): (r: Result<map<string, ServerComponent>>)
    ensures r.Ok? <==> forall k :: k in raw ==> ComponentFromJson(raw[k]).Ok?
    ensures r.Ok? ==> r.value.Keys == raw.Keys
  {
    if exists k :: k in raw && ComponentFromJson(raw[k]).Err? then Err("cannot unmarshal component")
    else Ok(map k | k in raw :: ComponentFromJson(raw[k]).value)
  }

  /** The raw map of an encoding holds each component's JSON. */
  lemma EncodedRaw(ms: seq<Member>, comps: map<string, ServerComponent>)
    requires DistinctKeys(ms) && (set m | m in ms :: m.key) == comps.Keys
    requires forall i :: 0 <= i < |ms| ==> ms[i].key in comps && ms[i].value == ComponentToJson(comps[ms[i].key])
    ensures MembersToMap(ms) == map k | k in comps :: ComponentToJson(comps[k])
  {
    var raw := MembersToMap(ms);
    MembersToMapDistinct(ms);
    forall k | k in raw
      ensures raw[k] == ComponentToJson(comps[k])
    {
      var m :| m in ms && m.key == k;
      var i :| 0 <= i < |ms| && ms[i] == m;
    }
  }

  /** The components of an encoding decode back to the encoded map. */
  lemma ComponentsRoundTrip(comps: map<string, ServerComponent>)
    ensures ComponentsFromMap(map k | k in comps :: ComponentToJson(comps[k])) == Ok(comps)
  {
    var raw := map k | k in comps :: ComponentToJson(comps[k]);
    forall k | k in raw
      ensures ComponentFromJson(raw[k]) == Ok(comps[k])
    {
      ComponentRoundTrip(comps[k]);
    }
    ComponentsFromMapOk(raw, comps);
  }

  lemma ComponentsFromMapOk(raw: map<string, Json>, comps: map<string, ServerComponent>)
    requires raw.Keys == comps.Keys
    requires forall k :: k in raw ==> ComponentFromJson(raw[k]) == Ok(comps[k])
    ensures ComponentsFromMap(raw) == Ok(comps)
  {
    assert (map k | k in raw :: ComponentFromJson(raw[k]).value) == comps;
  }

  /** `j` is a JSON encoding of `d`: its one `Components` member is null
      for a nil map and otherwise lists each component once, in any order. */
  ghost predicate EncodesDevice(j: Json, d: ServerDevice)
  {
    j.JObj? && |j.members| == 1 && j.members[0].key == "Components"
    && match d.components
       case None => j.members[0].value == JNull
       case Some(comps) =>
         var c := j.members[0].value;
         c.JObj? && DistinctKeys(c.members)
         && (set m | m in c.members :: m.key) == comps.Keys
         && forall i :: 0 <= i < |c.members| ==>
              c.members[i].key in comps && c.members[i].value == ComponentToJson(comps[c.members[i].key])
  }

  /** The members of a light's JSON bind `is_on`, `output_in_percent` and
      `Type` to what was encoded. */
  lemma LightFields(isOn: bool, out: u8)
    ensures Bound(LightToJson(isOn, out).members, "is_on") == (if isOn then [JBool(true)] else [])
    ensures Bound(LightToJson(isOn, out).members, "output_in_percent") == (if out != 0 then [JNum(out)] else [])
    ensures Bound(LightToJson(isOn, out).members, "Type") == [JStr(ComponentTypeLight)]
  {
    var a: seq<Member> := if isOn then [Member("is_on", JBool(true))] else [];
    var b: seq<Member> := if out != 0 then [Member("output_in_percent", JNum(out))] else [];
    var c := [Member("Type", JStr(ComponentTypeLight))];
    assert LightToJson(isOn, out).members == a + b + c;
    forall f | f in {"is_on", "output_in_percent", "Type"}
      ensures Bound(a + b + c, f) == Bound(a, f) + Bound(b, f) + Bound(c, f)
    {
      BoundAppend(a + b, c, f);
      BoundAppend(a, b, f);
    }
    assert !FoldEq("Type", "is_on") && !FoldEq("Type", "output_in_percent");
    assert !FoldEq("is_on", "output_in_percent") && !FoldEq("output_in_percent", "is_on");
    assert !FoldEq("is_on", "Type") && !FoldEq("output_in_percent", "Type");
    assert FoldEq("is_on", "is_on") && FoldEq("output_in_percent", "output_in_percent") && FoldEq("Type", "Type");
  }

  /** A light decodes back from its JSON, the empty light included. */
  lemma LightRoundTrip(isOn: bool, out: u8)
    ensures ComponentFromJson(LightToJson(isOn, out)) == Ok(Light(isOn, out))
  {
    var ms := LightToJson(isOn, out).members;
    LightFields(isOn, out);
    StringFieldOf(ms, "Type", ComponentTypeLight);
    BoolFieldOf(ms, "is_on", isOn);
    U8FieldOf(ms, "output_in_percent", out);
    assert StructMembers(LightToJson(isOn, out)) == Ok(ms);
  }

  /** A lock decodes back from its JSON. */
  lemma LockRoundTrip(isOpen: bool)
    ensures ComponentFromJson(LockToJson(isOpen)) == Ok(Lock(isOpen))
  {
    var a := [Member("is_open", JBool(isOpen))];
    var b := [Member("Type", JStr(ComponentTypeLock))];
    var ms := LockToJson(isOpen).members;
    assert ms == a + b;
    BoundAppend(a, b, "Type");
    BoundAppend(a, b, "is_open");
    assert !FoldEq("is_open", "Type") && !FoldEq("Type", "is_open");
    assert FoldEq("is_open", "is_open") && FoldEq("Type", "Type");
    assert Bound(ms, "Type") == [JStr(ComponentTypeLock)];
    assert Bound(ms, "is_open") == [JBool(isOpen)];
    StringFieldOf(ms, "Type", ComponentTypeLock);
    assert BoolField(ms, "is_open") == Ok(isOpen);
    assert StructMembers(LockToJson(isOpen)) == Ok(ms);
  }

  lemma ComponentRoundTrip(c: ServerComponent)
    ensures ComponentFromJson(ComponentToJson(c)) == Ok(c)
  {
    match c
    case Light(isOn, out) => LightRoundTrip(isOn, out);
    case Lock(isOpen) => LockRoundTrip(isOpen);
  }

  /** Every encoding of a device decodes back to it; a nil component map
      comes back as an empty one. */
  lemma DeviceRoundTrip(j: Json, d: ServerDevice)
    requires EncodesDevice(j, d)
    ensures DeviceFromJson(j) == Ok(ServerDevice(Some(if d.components.Some? then d.components.value else map[])))
  {
    var ms := j.members;
    var c := ms[0].value;
    assert ms == [Member("Components", c)];
    assert FoldEq("Components", "Components");
    MapFieldSingle("Components", c, "Components");
    if d.components.Some? {
      EncodedRaw(c.members, d.components.value);
      ComponentsRoundTrip(d.components.value);
    }
  }

  /** A `null` after a components object resets the map: the device
      decodes with no components. */
  lemma NullResetsComponents(c: Json)
    requires c.JObj?
    ensures DeviceFromJson(JObj([Member("Components", c), Member("Components", JNull)]))
            == Ok(ServerDevice(Some(map[])))
  {
    var ms := [Member("Components", c), Member("Components", JNull)];
    assert FoldEq("Components", "Components");
    assert ms[..1] == [Member("Components", c)] && ms[..1][..0] == [];
    assert Occurrences(ms, "Components") == [c, JNull];
    assert MembersToMap([]) == map[];
  }

  /** Key matching folds the long s to s: `iſ_on` sets the light's
      `is_on` field. */
  lemma LongSMatchesS()
    ensures FoldEq("i\U{017F}_on", "is_on")
  {
  }

  // ---------------------------------------------------------------------
  // The server

  const HardcodedPaths := ["/", "/status", "/devices", "/devices/{devID}", "/devices/{devID}/{compID}"]

  /** The body of the status route. */
  function StatusJson(): Json
  {
    JObj([Member("type", JStr(ServerTypeAllAtOnce))])
  }

  /** Each path under the prefix, in order. */
  method GetRouteURLs(prefix: string, paths: seq<string>) returns (routeURLs: seq<string>)
    ensures |routeURLs| == |paths|
    ensures forall i :: 0 <= i < |paths| ==> routeURLs[i] == prefix + paths[i]
  {
    routeURLs := seq(|paths|, _ => "");
    var i := 0;
    while i < |paths|
      invariant 0 <= i <= |paths| && |routeURLs| == |paths|
      invariant forall k :: 0 <= k < i ==> routeURLs[k] == prefix + paths[k]
    {
      routeURLs := routeURLs[i := prefix + paths[i]];
      i := i + 1;
    }
  }

  class Server {
    const port: u16
    var devices: map<string, ServerDevice>
    /** Signals sent on the notify channel. */
    var notifications: nat
    /** Channels registered to hear of changes, in registration order. */
    var listeners: seq<nat>

    constructor NewServer(port: u16)
      ensures this.port == port && devices == map[] && notifications == 0 && listeners == []
    {
      this.port := port;
      devices := map[];
      notifications := 0;
      listeners := [];
    }

    /** Reports `device` under `id` from now on, and signals one change. */
    method SetDevice(id: string, device: ServerDevice)
      modifies this`devices, this`notifications
      ensures devices == old(devices)[id := device]
      ensures notifications == old(notifications) + 1
    {
      devices := devices[id := device];
      notifications := notifications + 1;
    }

    /** Replaces one component of a known device, and signals one change; an
        unknown device is an error and changes nothing. Writing into a
        device without a component map is a run-time panic, which callers
        must not cause. */
    method SetComponent(deviceID: string, componentID: string, c: ServerComponent) returns (err: Outcome)
      requires deviceID in devices ==> devices[deviceID].components.Some?
      modifies this`devices, this`notifications
      ensures err.Fail? <==> deviceID !in old(devices)
      ensures err.Fail? ==> devices == old(devices) && notifications == old(notifications)
      ensures err.Pass? ==>
                devices == old(devices)[deviceID := ServerDevice(Some(old(devices)[deviceID].components.value[componentID := c]))]
                && notifications == old(notifications) + 1
    {
      if deviceID !in devices {
        return Fail("no device found with id " + deviceID);
      }
      var comps := devices[deviceID].components.value;
      devices := devices[deviceID := ServerDevice(Some(comps[componentID := c]))];
      notifications := notifications + 1;
      return Pass;
    }

    /** Forgets `id`, and signals one change. */
    method RemoveDevice(id: string)
      modifies this`devices, this`notifications
      ensures devices == old(devices) - {id}
      ensures notifications == old(notifications) + 1
    {
      devices := devices - {id};
      notifications := notifications + 1;
    }

    method ListenForChanges(hasChanged: nat)
      modifies this`listeners
      ensures listeners == old(listeners) + [hasChanged]
    {
      listeners := listeners + [hasChanged];
    }

    /** The device under `id`, or the zero device and false. */
    method GetDevice(id: string) returns (device: ServerDevice, ok: bool)
      ensures ok <==> id in devices
      ensures ok ==> device == devices[id]
      ensures !ok ==> device == ServerDevice(None)
    {
      if id in devices {
        return devices[id], true;
      }
      return ServerDevice(None), false;
    }

    /** GET /devices/{id}: 400 without an id, 404 for an unknown device,
        otherwise 200 with the device. */
    method GetDeviceHTTP(id: string) returns (code: int, body: Option<ServerDevice>)
      ensures id == "" ==> code == StatusBadRequest && body.None?
      ensures id != "" && id !in devices ==> code == StatusNotFound && body.None?
      ensures id != "" && id in devices ==> code == StatusOK && body == Some(devices[id])
    {
      if id == "" {
        return StatusBadRequest, None;
      }
      if id !in devices {
        return StatusNotFound, None;
      }
      return StatusOK, Some(devices[id]);
    }

    /** GET /devices/{devID}/{compID}: 400 without both ids, 404 for an
        unknown device or component, otherwise 200 with the component's
        JSON. */
    method GetComponentHTTP(devID: string, compID: string) returns (code: int, body: Option<Json>)
      ensures devID == "" || compID == "" ==> code == StatusBadRequest && body.None?
      ensures code == StatusOK <==>
                devID != "" && compID != "" && devID in devices
                && devices[devID].components.Some? && compID in devices[devID].components.value
      ensures code == StatusOK ==> body == Some(ComponentToJson(devices[devID].components.value[compID]))
      ensures code != StatusOK && devID != "" && compID != "" ==> code == StatusNotFound && body.None?
    {
      if devID == "" || compID == "" {
        return StatusBadRequest, None;
      }
      if devID !in devices {
        return StatusNotFound, None;
      }
      var comps := devices[devID].components;
      if comps.None? || compID !in comps.value {
        return StatusNotFound, None;
      }
      return StatusOK, Some(ComponentToJson(comps.value[compID]));
    }

    /** POST /devices/{id}: 400 without an id or for a body that is not a
        device; otherwise the device is stored and the client redirected to
        it. */
    method SetDeviceHTTP(id: string, body: Json) returns (code: int, location: string)
      modifies this`devices, this`notifications
      ensures id == "" || DeviceFromJson(body).Err? ==>
                code == StatusBadRequest && devices == old(devices) && notifications == old(notifications)
      ensures id != "" && DeviceFromJson(body).Ok? ==>
                code == StatusSeeOther && location == "/devices/" + id
                && devices == old(devices)[id := DeviceFromJson(body).value]
                && notifications == old(notifications) + 1
    {
      if id == "" {
        return StatusBadRequest, "";
      }
      var asDevice := DeviceFromJson(body);
      if asDevice.Err? {
        return StatusBadRequest, "";
      }
      SetDevice(id, asDevice.value);
      return StatusSeeOther, "/devices/" + id;
    }

    /** POST /devices/{devID}/{compID}: 400 without both ids or for a body
        that is not a component; otherwise the component is set and the
        client redirected to it, also when the device is unknown and
        nothing was set. */
    method SetComponentHTTP(devID: string, compID: string, body: Json) returns (code: int, location: string)
      requires devID != "" && compID != "" && ComponentFromJson(body).Ok? && devID in devices ==>
                 devices[devID].components.Some?
      modifies this`devices, this`notifications
      ensures devID == "" || compID == "" || ComponentFromJson(body).Err? ==>
                code == StatusBadRequest && devices == old(devices) && notifications == old(notifications)
      ensures devID != "" && compID != "" && ComponentFromJson(body).Ok? ==>
                code == StatusSeeOther && location == "/devices/" + devID + "/" + compID
      ensures devID != "" && compID != "" && ComponentFromJson(body).Ok? && devID !in old(devices) ==>
                devices == old(devices) && notifications == old(notifications)
      ensures devID != "" && compID != "" && ComponentFromJson(body).Ok? && devID in old(devices) ==>
                devices == old(devices)[devID := ServerDevice(Some(old(devices)[devID].components.value[compID := ComponentFromJson(body).value]))]
                && notifications == old(notifications) + 1
    {
      if devID == "" || compID == "" {
        return StatusBadRequest, "";
      }
      var asComponent := ComponentFromJson(body);
      if asComponent.Err? {
        return StatusBadRequest, "";
      }
      var _ := SetComponent(devID, compID, asComponent.value);
      return StatusSeeOther, "/devices/" + devID + "/" + compID;
    }
  }
}
