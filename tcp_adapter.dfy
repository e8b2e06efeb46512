/** The Connected by TCP adapter's decisions: which devices a gateway batch
    reply describes, how it logs in (cached credentials, retries), the keys
    its credentials are stored under, and the command that sets a light
    (adapter/connectedbytcp/driver.go). The gateway itself is an oracle:
    the reply to each login attempt and the fresh UUID each attempt would
    generate are parameters. */
module TcpAdapter {
  import opened Common
  import opened SiftTypes
  import opened TcpXml
  import opened Ipv4Context

  const OpenPorts: u16 := 443
  const NumLoginRetries := 3
  const CredentialsKeyGatewayToken := "tcpGatewayToken"
  const CredentialsKeyGatewayUUID := "tcpGatewayUUID"
  const Manufacturer := "TCP"
  const CarouselCommand := "RoomGetCarousel"

  /** The gateway is identified by its HTTPS port alone. */
  function GetIPv4Description(): (d: ServiceDescription)
    ensures d.openPorts == [443]
  {
    ServiceDescription([OpenPorts])
  }

  // ---------------------------------------------------------------------
  // The command tree of a batch reply

  /** The devices of every element of `xs`, in order. */
  function ConcatMap<T>(xs: seq<T>, f: T -> seq<XmlDevice>): seq<XmlDevice>
    decreases |xs|
  {
    if xs == [] then [] else ConcatMap(xs[..|xs| - 1], f) + f(xs[|xs| - 1])
  }

  lemma ConcatMapSnoc<T>(xs: seq<T>, i: nat, f: T -> seq<XmlDevice>)
    requires i < |xs|
    ensures ConcatMap(xs[..i + 1], f) == ConcatMap(xs[..i], f) + f(xs[i])
  {
    assert xs[..i + 1][..i] == xs[..i];
  }

  lemma {:induction false} ConcatMapMember<T>(xs: seq<T>, i: nat, f: T -> seq<XmlDevice>, d: XmlDevice)
    requires i < |xs| && d in f(xs[i])
    ensures d in ConcatMap(xs, f)
    decreases |xs|
  {
    if i < |xs| - 1 {
      assert xs[..|xs| - 1][i] == xs[i];
      ConcatMapMember(xs[..|xs| - 1], i, f, d);
    }
  }

  function RoomDevices(room: XmlRoom): seq<XmlDevice> { room.devices }
  function GipDevices(gip: XmlGip): seq<XmlDevice> { ConcatMap(gip.rooms, RoomDevices) }
  /** Only a carousel command describes devices. */
  function CmdDevices(cmd: XmlGwrCmd): seq<XmlDevice>
  {
    if cmd.command == CarouselCommand then ConcatMap(cmd.data.gips, GipDevices) else []
  }
  /** Every device described by a batch reply, in document order. */
  function Carousel(cmds: seq<XmlGwrCmd>): seq<XmlDevice> { ConcatMap(cmds, CmdDevices) }

  function Key(d: XmlDevice): ExternalDeviceID { ExternalDeviceID(Manufacturer, d.did) }

  predicate AllConvert(ds: seq<XmlDevice>)
  {
    forall d :: d in ds ==> XmlDeviceToSiftDevice(d).Ok?
  }

  /** `m` with the devices of `ds` added in order, each under its key, a
      later device with the same DID replacing an earlier one. */
  function Insert(m: map<ExternalDeviceID, Device>, ds: seq<XmlDevice>): map<ExternalDeviceID, Device>
    requires AllConvert(ds)
    decreases |ds|
  {
    if ds == [] then m
    else
      var d := ds[|ds| - 1];
      Insert(m, ds[..|ds| - 1])[Key(d) := XmlDeviceToSiftDevice(d).value]
  }

  /** The device map a batch describing `ds` yields. */
  function Converted(ds: seq<XmlDevice>): map<ExternalDeviceID, Device>
    requires AllConvert(ds)
  {
    Insert(map[], ds)
  }

  lemma {:induction false} InsertAppend(m: map<ExternalDeviceID, Device>, a: seq<XmlDevice>, b: seq<XmlDevice>)
    requires AllConvert(a) && AllConvert(b)
    ensures AllConvert(a + b) && Insert(Insert(m, a), b) == Insert(m, a + b)
    decreases |b|
  {
    if b != [] {
      var init := b[..|b| - 1];
      InsertAppend(m, a, init);
      assert (a + b)[..|a + b| - 1] == a + init;
      assert (a + b)[|a + b| - 1] == b[|b| - 1];
    } else {
      assert a + b == a;
    }
  }

  /** The map has exactly one key per described DID. */
  lemma {:induction false} ConvertedKeys(ds: seq<XmlDevice>)
    requires AllConvert(ds)
    ensures Converted(ds).Keys == set d | d in ds :: Key(d)
    decreases |ds|
  {
    if ds != [] {
      var init := ds[..|ds| - 1];
      ConvertedKeys(init);
      assert ds == init + [ds[|ds| - 1]];
      assert forall d :: d in ds <==> d in init || d == ds[|ds| - 1];
    }
  }

  /** A device that no later device shares its DID with is the one kept. */
  lemma {:induction false} ConvertedLastWins(ds: seq<XmlDevice>, i: nat)
    requires AllConvert(ds) && i < |ds|
    requires forall j :: i < j < |ds| ==> ds[j].did != ds[i].did
    ensures Key(ds[i]) in Converted(ds)
    ensures Converted(ds)[Key(ds[i])] == XmlDeviceToSiftDevice(ds[i]).value
    decreases |ds|
  {
    if i < |ds| - 1 {
      var init := ds[..|ds| - 1];
      assert init[i] == ds[i];
      assert forall j :: i < j < |init| ==> init[j] == ds[j];
      ConvertedLastWins(init, i);
    }
  }

  lemma InsertSnoc(m: map<ExternalDeviceID, Device>, ds: seq<XmlDevice>, l: nat)
    requires l < |ds| && AllConvert(ds[..l]) && XmlDeviceToSiftDevice(ds[l]).Ok?
    ensures AllConvert(ds[..l + 1])
    ensures Insert(m, ds[..l + 1]) == Insert(m, ds[..l])[Key(ds[l]) := XmlDeviceToSiftDevice(ds[l]).value]
  {
    assert ds[..l + 1][..l] == ds[..l];
  }

  /** Converts the devices of one room in order, each under its key. */
  method CollectDevices(devices: map<ExternalDeviceID, Device>, devs: seq<XmlDevice>)
      returns (devices': map<ExternalDeviceID, Device>, err: Option<string>, ghost bad: XmlDevice)
    ensures err.None? ==> AllConvert(devs) && devices' == Insert(devices, devs)
    ensures err.Some? ==> bad in devs && XmlDeviceToSiftDevice(bad).Err?
  {
    devices', err, bad := devices, None, XmlDevice("", "", "", "", "");
    var l := 0;
    while l < |devs|
      invariant 0 <= l <= |devs|
      invariant AllConvert(devs[..l]) && devices' == Insert(devices, devs[..l])
    {
      var device := devs[l];
      var converted := XmlDeviceToSiftDevice(device);
      if converted.Err? {
        return devices', Some("could not convert XML device to SIFT format: " + converted.msg), device;
      }
      InsertSnoc(devices, devs, l);
      devices' := devices'[Key(device) := converted.value];
      l := l + 1;
    }
    assert devs[..l] == devs;
  }

  /** Converts the devices of every room of one gip in order. */
  method CollectRooms(devices: map<ExternalDeviceID, Device>, rooms: seq<XmlRoom>)
      returns (devices': map<ExternalDeviceID, Device>, err: Option<string>, ghost bad: XmlDevice)
    ensures err.None? ==> AllConvert(ConcatMap(rooms, RoomDevices)) && devices' == Insert(devices, ConcatMap(rooms, RoomDevices))
    ensures err.Some? ==> bad in ConcatMap(rooms, RoomDevices) && XmlDeviceToSiftDevice(bad).Err?
  {
    devices', err, bad := devices, None, XmlDevice("", "", "", "", "");
    var k := 0;
    while k < |rooms|
      invariant 0 <= k <= |rooms|
      invariant err.None?
      invariant AllConvert(ConcatMap(rooms[..k], RoomDevices))
      invariant devices' == Insert(devices, ConcatMap(rooms[..k], RoomDevices))
    {
      ConcatMapSnoc(rooms, k, RoomDevices);
      devices', err, bad := CollectDevices(devices', rooms[k].devices);
      if err.Some? {
        ConcatMapMember(rooms, k, RoomDevices, bad);
        return;
      }
      InsertAppend(devices, ConcatMap(rooms[..k], RoomDevices), RoomDevices(rooms[k]));
      k := k + 1;
    }
    assert rooms[..k] == rooms;
  }

  /** Converts the devices of every gip of one carousel command in order. */
  method CollectGips(devices: map<ExternalDeviceID, Device>, gips: seq<XmlGip>)
      returns (devices': map<ExternalDeviceID, Device>, err: Option<string>, ghost bad: XmlDevice)
    ensures err.None? ==> AllConvert(ConcatMap(gips, GipDevices)) && devices' == Insert(devices, ConcatMap(gips, GipDevices))
    ensures err.Some? ==> bad in ConcatMap(gips, GipDevices) && XmlDeviceToSiftDevice(bad).Err?
  {
    devices', err, bad := devices, None, XmlDevice("", "", "", "", "");
    var j := 0;
    while j < |gips|
      invariant 0 <= j <= |gips|
      invariant err.None?
      invariant AllConvert(ConcatMap(gips[..j], GipDevices))
      invariant devices' == Insert(devices, ConcatMap(gips[..j], GipDevices))
    {
      ConcatMapSnoc(gips, j, GipDevices);
      devices', err, bad := CollectRooms(devices', gips[j].rooms);
      if err.Some? {
        ConcatMapMember(gips, j, GipDevices, bad);
        return;
      }
      InsertAppend(devices, ConcatMap(gips[..j], GipDevices), GipDevices(gips[j]));
      j := j + 1;
    }
    assert gips[..j] == gips;
  }

  /** The devices of one more command are added after the earlier ones. */
  lemma CarouselStep(cmds: seq<XmlGwrCmd>, i: nat)
    requires i < |cmds| && AllConvert(Carousel(cmds[..i])) && AllConvert(CmdDevices(cmds[i]))
    ensures AllConvert(Carousel(cmds[..i + 1]))
    ensures Converted(Carousel(cmds[..i + 1])) == Insert(Converted(Carousel(cmds[..i])), CmdDevices(cmds[i]))
  {
    ConcatMapSnoc(cmds, i, CmdDevices);
    InsertAppend(map[], Carousel(cmds[..i]), CmdDevices(cmds[i]));
  }

  /** Walks every carousel command, gip, room and device; fails the whole
      batch on the first device that does not convert. */
  method GetDevicesFromServer(cmds: seq<XmlGwrCmd>) returns (r: Result<map<ExternalDeviceID, Device>>)
    ensures r.Ok? <==> AllConvert(Carousel(cmds))
    ensures r.Ok? ==> r.value == Converted(Carousel(cmds))
  {
    var devices: map<ExternalDeviceID, Device> := map[];
    var i := 0;
    while i < |cmds|
      invariant 0 <= i <= |cmds|
      invariant AllConvert(Carousel(cmds[..i]))
      invariant devices == Converted(Carousel(cmds[..i]))
    {
      if cmds[i].command == CarouselCommand {
        var err: Option<string>;
        ghost var bad: XmlDevice;
        devices, err, bad := CollectGips(devices, cmds[i].data.gips);
        if err.Some? {
          ConcatMapMember(cmds, i, CmdDevices, bad);
          return Err(err.value);
        }
      }
      CarouselStep(cmds, i);
      i := i + 1;
    }
    assert cmds[..i] == cmds;
    return Ok(devices);
  }

  // ---------------------------------------------------------------------
  // Credentials

  function UuidKey(unique: string): string { CredentialsKeyGatewayUUID + ":" + unique }
  function TokenKey(unique: string): string { CredentialsKeyGatewayToken + ":" + unique }

  /** A UUID key is never a token key, whatever the two unique strings. */
  lemma UuidKeyIsNeverTokenKey(u1: string, u2: string)
    ensures UuidKey(u1) != TokenKey(u2)
  {
    assert UuidKey(u1)[10] == 'U' && TokenKey(u2)[10] == 'T';
  }

  /** Different services get different keys. */
  lemma KeysAreInjective(u1: string, u2: string)
    ensures UuidKey(u1) == UuidKey(u2) ==> u1 == u2
    ensures TokenKey(u1) == TokenKey(u2) ==> u1 == u2
  {
    if UuidKey(u1) == UuidKey(u2) {
      assert u1 == UuidKey(u1)[|CredentialsKeyGatewayUUID| + 1..];
    }
    if TokenKey(u1) == TokenKey(u2) {
      assert u1 == TokenKey(u1)[|CredentialsKeyGatewayToken| + 1..];
    }
  }

  /** What reading a credential yields: the stored value, or "" when the
      context is dead or nothing is stored. */
  function Stored(context: ServiceContext, key: string): string
    reads context, context.db
  {
    var found := Lookup(context.db.rows, context.adapterName, key);
    if context.alive && found.Some? then found.value else ""
  }

  method GetUUIDFromContext(context: ServiceContext) returns (uuid: string)
    ensures uuid == Stored(context, UuidKey(context.ip))
  {
    var r := context.GetData(UuidKey(context.ip));
    uuid := if r.Ok? then r.value else "";
  }

  method GetLoginTokenFromContext(context: ServiceContext) returns (token: string)
    ensures token == Stored(context, TokenKey(context.ip))
  {
    var r := context.GetData(TokenKey(context.ip));
    token := if r.Ok? then r.value else "";
  }

  /** The gateway's answer to one login request: a transport or parse
      failure, or a parsed reply. */
  datatype LoginReply = LoginFailed(msg: string) | LoginAnswered(gip: XmlLoginGip)

  predicate Accepted(reply: LoginReply)
  {
    reply.LoginAnswered? && reply.gip.rc == "200" && reply.gip.token != ""
  }

  predicate Cached(context: ServiceContext)
    reads context, context.db
  {
    Stored(context, UuidKey(context.ip)) != "" && Stored(context, TokenKey(context.ip)) != ""
  }

  /** The store after a successful login saved its UUID and token. */
  function SavedRows(rows: map<(string, string), string>, context: ServiceContext, uuid: string, token: string): map<(string, string), string>
  {
    rows[(context.adapterName, UuidKey(context.ip)) := uuid][(context.adapterName, TokenKey(context.ip)) := token]
  }

  method SaveUUIDAndTokenToContext(context: ServiceContext, uuid: string, token: string) returns (err: Outcome)
    modifies context.db
    ensures err.Fail? <==> !context.alive
    ensures context.db.rows == if context.alive then SavedRows(old(context.db.rows), context, uuid, token) else old(context.db.rows)
  {
    var e := context.StoreData(UuidKey(context.ip), uuid);
    if e.Fail? {
      return Fail("could not store uuid to context: " + e.msg);
    }
    e := context.StoreData(TokenKey(context.ip), token);
    err := if e.Fail? then Fail("could not store login token to context") else Pass;
  }

  /** One login: the cached token when both credentials are stored, without
      contacting the gateway; otherwise a request with the stored UUID (a
      fresh one when none is stored), accepted only on code "200" with a
      non-empty token, which is then stored with the UUID. */
  method LoginContext(context: ServiceContext, reply: LoginReply, freshUuid: string)
      returns (token: string, err: Outcome, contacted: bool)
    modifies context.db
    ensures contacted <==> !old(Cached(context))
    ensures !contacted ==> err.Pass? && token == old(Stored(context, TokenKey(context.ip)))
                           && context.db.rows == old(context.db.rows)
    ensures contacted ==> (err.Pass? <==> Accepted(reply) && context.alive)
    ensures contacted && err.Pass? ==>
              var u := old(Stored(context, UuidKey(context.ip)));
              token == reply.gip.token
              && context.db.rows == SavedRows(old(context.db.rows), context, if u == "" then freshUuid else u, token)
    ensures err.Fail? ==> token == "" && context.db.rows == old(context.db.rows)
    ensures err.Pass? ==> token != ""
  {
    var uuid := GetUUIDFromContext(context);
    token := GetLoginTokenFromContext(context);
    if uuid != "" && token != "" {
      return token, Pass, false;
    }
    contacted := true;
    if uuid == "" {
      uuid := freshUuid;
    }
    match reply
    case LoginFailed(msg) =>
      return "", Fail(msg), true;
    case LoginAnswered(gip) =>
      if gip.rc != "200" || gip.token == "" {
        return "", Fail("tried to login to ConnectedByTCP API at " + context.ip + ", but received unexpected response"), true;
      }
      token := gip.token;
      var e := SaveUUIDAndTokenToContext(context, uuid, token);
      if e.Fail? {
        return "", e, true;
      }
      return token, Pass, true;
  }

  /** Up to `numRetries` logins, attempt `i` meeting `replies(i)` and
      generating `uuids(i)`; the first success is returned, and the error
      only after `numRetries` failures. A failed attempt stores nothing, so
      each attempt starts from the same credentials. */
  method LoginWRetry(context: ServiceContext, numRetries: int, replies: nat -> LoginReply, uuids: nat -> string)
      returns (token: string, err: Outcome, ghost attempts: nat)
    modifies context.db
    ensures numRetries <= 0 ==> token == "" && err.Pass? && attempts == 0 && context.db.rows == old(context.db.rows)
    ensures numRetries > 0 && old(Cached(context)) ==>
              attempts == 1 && err.Pass? && token == old(Stored(context, TokenKey(context.ip)))
              && context.db.rows == old(context.db.rows)
    ensures numRetries > 0 && !old(Cached(context)) ==>
              1 <= attempts <= numRetries
              && (forall j :: 0 <= j < attempts - 1 ==> !(Accepted(replies(j)) && context.alive))
              && (err.Pass? <==> Accepted(replies(attempts - 1)) && context.alive)
    ensures numRetries > 0 && !old(Cached(context)) && err.Pass? ==>
              var u := old(Stored(context, UuidKey(context.ip)));
              token == replies(attempts - 1).gip.token
              && context.db.rows == SavedRows(old(context.db.rows), context, if u == "" then uuids(attempts - 1) else u, token)
    ensures err.Fail? ==> attempts == numRetries && token == "" && context.db.rows == old(context.db.rows)
  {
    attempts := 0;
    var i := 0;
    while i < numRetries
      invariant 0 <= i <= if numRetries < 0 then 0 else numRetries
      invariant attempts == i
      invariant numRetries > 0 ==> i < numRetries
      invariant context.db.rows == old(context.db.rows)
      invariant i > 0 ==> !old(Cached(context))
      invariant forall j :: 0 <= j < i ==> !(Accepted(replies(j)) && context.alive)
    {
      var t, e, _ := LoginContext(context, replies(i), uuids(i));
      attempts := attempts + 1;
      if e.Fail? {
        if i == numRetries - 1 {
          return "", Fail("could not log in to Connected By TCP hub: " + e.msg), attempts;
        }
        i := i + 1;
        continue;
      }
      return t, Pass, attempts;
    }
    return "", Pass, attempts;
  }

  /** The first of the first `n` replies that the gateway accepted, or `n`
      when it accepted none. */
  function FirstAccepted(replies: nat -> LoginReply, n: nat): (j: nat)
    ensures j <= n
    ensures j < n ==> Accepted(replies(j))
    ensures forall i :: 0 <= i < j ==> !Accepted(replies(i))
    decreases n
  {
    if n == 0 then 0
    else
      var k := FirstAccepted(replies, n - 1);
      if k < n - 1 then k else if Accepted(replies(n - 1)) then n - 1 else n
  }

  /** What a login with `numRetries` attempts yields from a context with the
      given cached state: "" for no attempt, the cached token, or the token
      of the first accepted reply; an error when no attempt succeeds. */
  function LoginOutcome(cached: bool, cachedToken: string, alive: bool, numRetries: int,
                        replies: nat -> LoginReply): Result<string>
  {
    if numRetries <= 0 then Ok("")
    else if cached then Ok(cachedToken)
    else
      var j := FirstAccepted(replies, numRetries);
      if alive && j < numRetries then Ok(replies(j).gip.token)
      else Err("could not log in to Connected By TCP hub")
  }

  /** The credential rows after such a login: the UUID and token of the
      accepted reply are stored when the gateway was contacted and
      accepted; otherwise nothing changes. */
  function LoginRows(rows: map<(string, string), string>, context: ServiceContext, cached: bool, storedUuid: string,
                     alive: bool, numRetries: int, replies: nat -> LoginReply, uuids: nat -> string)
    : map<(string, string), string>
  {
    var j := FirstAccepted(replies, if numRetries < 0 then 0 else numRetries);
    if numRetries <= 0 || cached || !alive || j >= numRetries then rows
    else SavedRows(rows, context, if storedUuid == "" then uuids(j) else storedUuid, replies(j).gip.token)
  }

  ghost function LoginOutcomeIn(context: ServiceContext, numRetries: int, replies: nat -> LoginReply): Result<string>
    reads context, context.db
  {
    LoginOutcome(Cached(context), Stored(context, TokenKey(context.ip)), context.alive, numRetries, replies)
  }

  ghost function LoginRowsIn(context: ServiceContext, numRetries: int, replies: nat -> LoginReply, uuids: nat -> string)
    : map<(string, string), string>
    reads context, context.db
  {
    LoginRows(context.db.rows, context, Cached(context), Stored(context, UuidKey(context.ip)), context.alive,
              numRetries, replies, uuids)
  }

  /** The attempt LoginWRetry stopped at is the first accepted one, so its
      result is LoginOutcome's. */
  lemma {:induction false} AttemptsAreFirstAccepted(replies: nat -> LoginReply, n: nat, attempts: nat)
    requires 1 <= attempts <= n
    requires forall j :: 0 <= j < attempts - 1 ==> !Accepted(replies(j))
    ensures Accepted(replies(attempts - 1)) ==> FirstAccepted(replies, n) == attempts - 1
    ensures !Accepted(replies(attempts - 1)) && attempts == n ==> FirstAccepted(replies, n) == n
  {
  }

  // ---------------------------------------------------------------------
  // Intents

  /** "0" turns the light off, "1" on. */
  function OnFlag(brightness: u8): string
  {
    if brightness == 0 then "0" else "1"
  }

  function LevelString(brightness: u8): string
  {
    Itoa(brightness)
  }

  /** The flag is "0" exactly for brightness 0, and the level text reads
      back as the brightness. */
  lemma FlagAndLevel(brightness: u8)
    ensures OnFlag(brightness) == "0" <==> brightness == 0
    ensures Atoi(LevelString(brightness)) == Ok(brightness as int)
  {
    AtoiItoa(brightness);
  }

  /** The batch sent to set a light: its level, then its on flag. */
  function SetLightCommand(token: string, did: string, brightness: u8): string
  {
    "<gwrcmds>"
    + "<gwrcmd><gcmd>DeviceSendCommand</gcmd><gdata><gip><version>1</version><token>" + token
    + "</token><did>" + did + "</did><value>" + LevelString(brightness)
    + "</value><type>level</type></gip></gdata></gwrcmd>"
    + "<gwrcmd><gcmd>DeviceSendCommand</gcmd><gdata><gip><version>1</version><token>" + token
    + "</token><did>" + did + "</did><value>" + OnFlag(brightness) + "</value></gip></gdata></gwrcmd>"
    + "</gwrcmds>"
  }

  /** `command` sets the light `did` to `brightness`, under some login token. */
  ghost predicate IsSetLightCommand(command: string, did: string, brightness: u8)
  {
    exists token :: token != "" && command == SetLightCommand(token, did, brightness)
  }

  lemma SetLightCommandIs(token: string, did: string, brightness: u8)
    requires token != ""
    ensures IsSetLightCommand(SetLightCommand(token, did, brightness), did, brightness)
  {
  }

  /** An adapter serving one context. */
  class Ipv4Adapter {
    const context: ServiceContext

    constructor(context: ServiceContext)
      ensures this.context == context
    {
      this.context := context;
    }

    /** Only a light-emitter intent is enacted: after a login (with the
        standard number of retries) the level-and-flag batch is posted
        under the login's token, and the post's own outcome is returned;
        a failed login posts nothing. */
    method EnactIntent(target: ExternalComponentID, intent: Intent, replies: nat -> LoginReply,
                       uuids: nat -> string, postResult: Outcome)
        returns (err: Outcome, posted: Option<string>)
      modifies context.db
      ensures !intent.SetLightEmitterIntent? ==> err.Fail? && posted.None? && context.db.rows == old(context.db.rows)
      ensures intent.SetLightEmitterIntent? ==>
                var login := old(LoginOutcomeIn(context, NumLoginRetries, replies));
                && (posted.Some? <==> login.Ok?)
                && (posted.Some? ==> err == postResult
                                     && posted.value == SetLightCommand(login.value, target.name, intent.brightnessInPercent))
                && (posted.None? ==> err.Fail?)
                && context.db.rows == old(LoginRowsIn(context, NumLoginRetries, replies, uuids))
      ensures posted.Some? ==> IsSetLightCommand(posted.value, target.name, intent.brightnessInPercent)
    {
      match intent
      case SetLightEmitterIntent(b) =>
        err, posted := SetLight(context, target, b, replies, uuids, postResult);
      case _ =>
        return Fail("unhandled intent type"), None;
    }
  }

  /** Logs in with the standard number of retries; on success posts the
      level-and-flag batch under the token the login produced and returns
      the post's outcome, otherwise posts nothing and fails. */
  method SetLight(context: ServiceContext, target: ExternalComponentID, brightness: u8,
                  replies: nat -> LoginReply, uuids: nat -> string, postResult: Outcome)
      returns (err: Outcome, posted: Option<string>)
    modifies context.db
    ensures var login := old(LoginOutcomeIn(context, NumLoginRetries, replies));
            && (posted.Some? <==> login.Ok?)
            && (posted.Some? ==> err == postResult && posted.value == SetLightCommand(login.value, target.name, brightness))
    ensures posted.Some? ==> IsSetLightCommand(posted.value, target.name, brightness)
    ensures posted.None? ==> err.Fail?
    ensures context.db.rows == old(LoginRowsIn(context, NumLoginRetries, replies, uuids))
  {
    ghost var login := LoginOutcomeIn(context, NumLoginRetries, replies);
    var token, e := LoggedInToken(context, replies, uuids);
    if e.Fail? {
      return Fail("could not log in to Connected By TCP hub"), None;
    }
    var command := SetLightCommand(token, target.name, brightness);
    SetLightCommandIs(token, target.name, brightness);
    return postResult, Some(command);
  }

  /** A login with the standard number of retries: it succeeds exactly when
      LoginOutcome does, with its token, and leaves the rows LoginRows
      gives. */
  method LoggedInToken(context: ServiceContext, replies: nat -> LoginReply, uuids: nat -> string)
      returns (token: string, err: Outcome)
    modifies context.db
    ensures var login := old(LoginOutcomeIn(context, NumLoginRetries, replies));
            && (err.Pass? <==> login.Ok?)
            && (err.Pass? ==> token == login.value && token != "")
    ensures context.db.rows == old(LoginRowsIn(context, NumLoginRetries, replies, uuids))
  {
    ghost var login := LoginOutcomeIn(context, NumLoginRetries, replies);
    ghost var rows := LoginRowsIn(context, NumLoginRetries, replies, uuids);
    ghost var cached := Cached(context);
    var t, e, attempts := LoginWRetry(context, NumLoginRetries, replies, uuids);
    if !cached && context.alive {
      AttemptsAreFirstAccepted(replies, NumLoginRetries, attempts);
    }
    token, err := t, e;
  }

  /** An adapter for every context there is, and none without one. */
  method HandleIPv4(context: ServiceContext?) returns (a: Ipv4Adapter?)
    ensures a == null <==> context == null
    ensures a != null ==> a.context == context
  {
    if context == null {
      return null;
    }
    a := new Ipv4Adapter(context);
  }
}
