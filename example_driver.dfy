/** The example driver (drivers/example/driver.go): it reads the example
    server's devices, converts them to SIFT devices, and turns a
    light-emitter intent into a light posted back to the server. The HTTP
    exchanges are parameters: the body the server answered with, and the
    status code (or transport failure) of a post. */
module ExampleDriver {
  import opened Common
  import opened SiftTypes
  import opened Json
  import opened ExampleServer
  import opened Differ
  import opened Ipv4Context

  const Manufacturer := "example"
  const LightModel := "light_emitter_1"
  const ExampleBase := BaseComponent(Manufacturer, LightModel)

  /** The server is identified by the one port the factory was given. */
  function GetIPv4Description(port: u16): (d: ServiceDescription)
    ensures d.openPorts == [port]
  {
    ServiceDescription([port])
  }

  function GetStatusURL(ip: string, port: u16): string
  {
    "http://" + ip + ":" + Itoa(port) + "/status"
  }

  function GetDevicesURL(ip: string, port: u16): string
  {
    "http://" + ip + ":" + Itoa(port) + "/devices"
  }

  /** Both URLs name the same host and port, whose text reads back as the
      port, and differ only in their path. */
  lemma URLsShareHostAndPort(ip: string, port: u16)
    ensures var base := "http://" + ip + ":" + Itoa(port);
            Atoi(Itoa(port)) == Ok(port as int)
            && GetStatusURL(ip, port) == base + "/status"
            && GetDevicesURL(ip, port) == base + "/devices"
  {
    AtoiItoa(port);
  }

  /** A service is an example service when its status document decodes
      into the status struct with type "all_at_once"; a `null` document
      decodes to the zero status, whose empty type does not match. */
  predicate IsExampleService(status: Json)
    ensures IsExampleService(status) ==>
              status.JObj? && JStr(ServerTypeAllAtOnce) in Bound(status.members, "type")
  {
    StructMembers(status).Ok? && StringField(StructMembers(status).value, "type") == Ok(ServerTypeAllAtOnce)
  }

  /** The server's own status document identifies it. */
  lemma StatusIdentifiesServer()
    ensures IsExampleService(StatusJson())
  {
    BoundSingle("type", JStr(ServerTypeAllAtOnce), "type");
  }

  // ---------------------------------------------------------------------
  // Conversion

  /** A server light as a SIFT light emitter; whether it is on is not
      carried over. */
  function ConvertLight(light: ServerComponent): Component
    requires light.Light?
  {
    LightEmitter(ExampleBase, light.outputInPercent)
  }

  lemma ConvertLightIgnoresIsOn(out: u8)
    ensures ConvertLight(Light(true, out)) == ConvertLight(Light(false, out))
    ensures ConvertLight(Light(true, out)).brightnessInPercent == out
  {
  }

  function ConvertComponent(c: ServerComponent): (r: Result<Component>)
    ensures r.Ok? <==> c.Light?
    ensures r.Ok? ==> r.value == ConvertLight(c)
  {
    if c.Light? then Ok(ConvertLight(c)) else Err("unsupported component type")
  }

  function Comps(d: ServerDevice): map<string, ServerComponent>
  {
    if d.components.Some? then d.components.value else map[]
  }

  /** The SIFT form of a server device: its lights, under the same names;
      no name, and not online. */
  function SiftDevice(d: ServerDevice): Device
  {
    Device("", false, map k | k in Comps(d) && Comps(d)[k].Light? :: ConvertLight(Comps(d)[k]))
  }

  /** Exactly the lights are kept, each with its output as brightness. */
  lemma SiftDeviceKeepsLights(d: ServerDevice, k: string)
    ensures k in SiftDevice(d).components <==> k in Comps(d) && Comps(d)[k].Light?
    ensures k in SiftDevice(d).components ==>
              SiftDevice(d).components[k] == LightEmitter(ExampleBase, Comps(d)[k].outputInPercent)
  {
  }

  /** Converts each component, skipping any that is not a light. */
  method ConvertDevice(d: ServerDevice) returns (r: Device)
    ensures r == SiftDevice(d)
  {
    var components: map<string, Component> := map[];
    var todo := Comps(d).Keys;
    while todo != {}
      invariant todo <= Comps(d).Keys
      invariant forall k :: k in components <==> k in Comps(d) && k !in todo && Comps(d)[k].Light?
      invariant forall k :: k in components ==> components[k] == ConvertLight(Comps(d)[k])
      decreases todo
    {
      var id :| id in todo;
      todo := todo - {id};
      var comp := ConvertComponent(Comps(d)[id]);
      if comp.Err? {
        continue;
      }
      components := components[id := comp.value];
    }
    return Device("", false, components);
  }

  /** The raw devices of a `/devices` document: an object's members (a
      later duplicate id replacing an earlier one), none for `null`. */
  function RawDevices(j: Json): Result<map<string, Json>>
  {
    match j
    case JObj(ms) => Ok(MembersToMap(ms))
    case JNull => Ok(map[])
    case _ => Err("cannot unmarshal into Go map")
  }

  function Key(id: string): ExternalDeviceID { ExternalDeviceID(Manufacturer, id) }

  /** Parses every device of the document, keyed by its id under the
      example manufacturer; one device that does not parse fails all. */
  method ParseDevices(j: Json) returns (r: Result<map<ExternalDeviceID, Device>>)
    ensures r.Ok? <==> RawDevices(j).Ok? && forall id :: id in RawDevices(j).value ==> DeviceFromJson(RawDevices(j).value[id]).Ok?
    ensures r.Ok? ==> r.value.Keys == set id | id in RawDevices(j).value :: Key(id)
    ensures r.Ok? ==> forall id :: id in RawDevices(j).value ==>
                        r.value[Key(id)] == SiftDevice(DeviceFromJson(RawDevices(j).value[id]).value)
  {
    var messages := RawDevices(j);
    if messages.Err? {
      return Err(messages.msg);
    }
    var raw := messages.value;
    var devices: map<ExternalDeviceID, Device> := map[];
    var todo := raw.Keys;
    while todo != {}
      invariant todo <= raw.Keys
      invariant forall id :: id in raw && id !in todo ==> DeviceFromJson(raw[id]).Ok?
      invariant devices.Keys == set id | id in raw && id !in todo :: Key(id)
      invariant forall id :: id in raw && id !in todo ==> devices[Key(id)] == SiftDevice(DeviceFromJson(raw[id]).value)
      decreases todo
    {
      var id :| id in todo;
      var parsed := DeviceFromJson(raw[id]);
      if parsed.Err? {
        return Err("error while attempting to marshal text to json: " + parsed.msg);
      }
      var device := ConvertDevice(parsed.value);
      devices := devices[Key(id) := device];
      todo := todo - {id};
    }
    return Ok(devices);
  }

  // ---------------------------------------------------------------------
  // Intents

  /** The server light an intent asks for: off at 0, otherwise on, with the
      output capped at 100. */
  function IntentLight(brightness: u8): (light: ServerComponent)
    ensures light.Light?
    ensures light.isOn <==> brightness > 0
    ensures light.outputInPercent == if brightness >= 100 then 100 else brightness
  {
    if brightness == 0 then Light(false, 0)
    else if brightness >= 100 then Light(true, 100)
    else Light(true, brightness)
  }

  /** What the driver reads back after the server stored the light an
      intent posted: the intent's brightness, capped at 100. */
  lemma IntentReadsBack(brightness: u8)
    ensures var stored := ComponentFromJson(ComponentToJson(IntentLight(brightness)));
            stored.Ok? && stored.value.Light?
            && ConvertLight(stored.value).brightnessInPercent == if brightness >= 100 then 100 else brightness
  {
    ComponentRoundTrip(IntentLight(brightness));
  }

  /** An adapter for one example server. */
  class ExampleAdapter {
    const ip: string
    const port: u16
    const differ: AllAtOnceDiffer

    constructor(ip: string, port: u16, differ: AllAtOnceDiffer)
      ensures this.ip == ip && this.port == port && this.differ == differ
    {
      this.ip := ip;
      this.port := port;
      this.differ := differ;
    }

    /** Enacts a light-emitter intent on a light the driver last saw: the
        light is posted to the component's URL, and only a 200 answer is a
        success. Any other intent, an unknown device or component, or a
        component that is not a light is refused before anything is
        posted. `response` is the post's status code, or its failure. */
    method EnactIntent(target: ExternalComponentID, intent: Intent, response: Result<int>)
        returns (err: Outcome, posted: Option<(string, Json)>)
      ensures posted.Some? <==>
                intent.SetLightEmitterIntent? && differ.GetLatest(target.device).Ok?
                && target.name in differ.GetLatest(target.device).value.components
                && differ.GetLatest(target.device).value.components[target.name].LightEmitter?
      ensures posted.None? ==> err.Fail?
      ensures posted.Some? ==>
                posted.value == (GetDevicesURL(ip, port) + "/" + target.device.id + "/" + target.name,
                                 ComponentToJson(IntentLight(intent.brightnessInPercent)))
                && (err.Pass? <==> response == Ok(StatusOK))
    {
      if !intent.SetLightEmitterIntent? {
        return Fail("unhandled intent type"), None;
      }
      var device := differ.GetLatest(target.device);
      if device.Err? {
        return Fail(device.msg), None;
      }
      if target.name !in device.value.components {
        return Fail("device " + target.device.id + " does not have a component named " + target.name), None;
      }
      if !device.value.components[target.name].LightEmitter? {
        return Fail("cannot enact SetLightEmitterIntent on a component which is not a types.LightEmitter"), None;
      }
      var light := IntentLight(intent.brightnessInPercent);
      var url := GetDevicesURL(ip, port) + "/" + target.device.id + "/" + target.name;
      posted := Some((url, ComponentToJson(light)));
      err := match response
        case Err(e) => Fail("error posting component to JSON: " + e)
        case Ok(code) => if code == StatusOK then Pass else Fail("unexpected response code");
    }
  }
}
