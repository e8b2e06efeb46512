/** The Connected by TCP gateway's XML documents, after parsing, and their
    conversion into SIFT devices (drivers/connectedbytcp/xml.go). */
module TcpXml {
  import opened Common
  import opened SiftTypes

  /** A `<device>`: every field is the element's character data, "" when
      the element is absent. */
  datatype XmlDevice = XmlDevice(did: string, name: string, offline: string, state: string, level: string)
  datatype XmlRoom = XmlRoom(devices: seq<XmlDevice>)
  datatype XmlGip = XmlGip(rooms: seq<XmlRoom>)
  datatype XmlGData = XmlGData(gips: seq<XmlGip>)
  datatype XmlGwrCmd = XmlGwrCmd(command: string, data: XmlGData)
  datatype XmlGwrCmds = XmlGwrCmds(commands: seq<XmlGwrCmd>)
  /** The reply to a login request. */
  datatype XmlLoginGip = XmlLoginGip(version: string, rc: string, token: string, rooms: seq<XmlRoom>)

  const ComponentManufacturer := "connected_by_tcp"
  const BulbModel := "bulb"
  const BulbBase := BaseComponent(ComponentManufacturer, BulbModel)

  /** The brightness of a converted device, read back from its one
      component. */
  function BrightnessOf(d: Device, did: string): int
  {
    if did in d.components && d.components[did].LightEmitter? then d.components[did].brightnessInPercent else -1
  }

  /** Converts a gateway device into a SIFT device with one light emitter,
      keyed by the device's DID.

      Brightness: 0 when the level or the state text is empty, or when the
      state is 0 (the level is then not read); with a non-zero state, level
      0 means 1 (the bulb is still on) and any other level is taken as is,
      truncated to a byte. A state that is not an integer (with a level
      present), or a level that is not an integer (with a non-zero state),
      is an error. */
  function XmlDeviceToSiftDevice(device: XmlDevice): (r: Result<Device>)
    ensures r.Ok? ==> r.value.name == "TCP bulb " + device.name
    ensures r.Ok? ==> (r.value.isOnline <==> device.offline == "")
    ensures r.Ok? ==> r.value.components.Keys == {device.did}
    ensures r.Ok? ==> r.value.components[device.did].LightEmitter?
                      && r.value.components[device.did].base == BulbBase
    ensures r.Err? <==> device.level != "" && device.state != ""
                        && (Atoi(device.state).Err?
                            || (Atoi(device.state).value != 0 && Atoi(device.level).Err?))
    ensures device.level == "" || device.state == "" || Atoi(device.state) == Ok(0) ==>
              r.Ok? && BrightnessOf(r.value, device.did) == 0
    ensures device.level != "" && Atoi(device.state).Ok? && Atoi(device.state).value != 0 && Atoi(device.level) == Ok(0) ==>
              r.Ok? && BrightnessOf(r.value, device.did) == 1
    ensures device.level != "" && Atoi(device.state).Ok? && Atoi(device.state).value != 0
            && Atoi(device.level).Ok? && Atoi(device.level).value != 0 ==>
              r.Ok? && BrightnessOf(r.value, device.did) == ToUint8(Atoi(device.level).value)
  {
    var output: Result<int> :=
      if device.level != "" && device.state != "" then
        match Atoi(device.state)
        case Err(e) => Err("could not convert XML State string " + device.level + " to int: " + e)
        case Ok(state) =>
          if state == 0 then Ok(0)
          else match Atoi(device.level)
            case Err(e) => Err("could not convert XML Level string " + device.level + " to int: " + e)
            case Ok(level) => if level == 0 then Ok(1) else Ok(level)
      else Ok(0);
    match output
    case Err(e) => Err(e)
    case Ok(outputInPercent) =>
      Ok(Device(
        "TCP bulb " + device.name,
        device.offline == "",
        map[device.did := LightEmitter(BulbBase, ToUint8(outputInPercent))]))
  }

  /** The gateway's description of a bulb with the given name, DID,
      reachability and brightness. */
  function BulbToXml(did: string, name: string, online: bool, brightness: u8): XmlDevice
  {
    XmlDevice(did, name, if online then "" else "1", if brightness == 0 then "0" else "1", Itoa(brightness))
  }

  /** Converting a described bulb gives back exactly its name, reachability
      and brightness. */
  lemma BulbRoundTrip(did: string, name: string, online: bool, brightness: u8)
    ensures var r := XmlDeviceToSiftDevice(BulbToXml(did, name, online, brightness));
            r == Ok(Device("TCP bulb " + name, online, map[did := LightEmitter(BulbBase, brightness)]))
  {
    AtoiItoa(brightness);
    AtoiItoa(0);
    AtoiItoa(1);
    assert Itoa(0) == "0" && Itoa(1) == "1";
  }

  /** A level past a byte wraps around: 300 reads as 44. */
  lemma LevelWrapsAround()
    ensures var r := XmlDeviceToSiftDevice(XmlDevice("d", "n", "", "1", "300"));
            r.Ok? && BrightnessOf(r.value, "d") == 44
  {
    AtoiItoa(1);
    AtoiItoa(300);
    assert Itoa(1) == "1";
    assert Itoa(300) == "300";
  }
}
