/** The Chromecast driver (drivers/chromecast/driver.go): it runs the
    polling script for one Chromecast and turns each line the script prints
    into a one-device snapshot for its differ. The script's output is a
    parameter: each line as a parsed JSON value, or a syntax error. */
module ChromecastDriver {
  import opened Common
  import opened SiftTypes
  import opened Json
  import opened Differ
  import opened Ipv4Context
  import GetUpdates

  const Manufacturer := "google"
  const OpenPorts: seq<u16> := [8008, 8009]
  const ComponentName := "chromecast"

  function GetIPv4Description(): (d: ServiceDescription)
    ensures d.openPorts == [8008, 8009]
  {
    ServiceDescription(OpenPorts)
  }

  // ---------------------------------------------------------------------
  // Decoding the script's lines

  /** A line as a `pyMsg`: just its `Type`. */
  function DecodeType(j: Json): Result<string>
  {
    var ms := StructMembers(j);
    if ms.Err? then Err(ms.msg) else StringField(ms.value, "Type")
  }

  /** A line as a `pyError`: its `Type` and `Error`. */
  function DecodeError(j: Json): Result<string>
  {
    var ms := StructMembers(j);
    if ms.Err? then Err(ms.msg)
    else if StringField(ms.value, "Type").Err? then Err(StringField(ms.value, "Type").msg)
    else StringField(ms.value, "Error")
  }

  function DecodeMediaPlayerState(j: Json): Result<MediaPlayerState>
  {
    var ms := StructMembers(j);
    if ms.Err? then Err(ms.msg)
    else
      var play := StringField(ms.value, "play_state");
      var media := StringField(ms.value, "media_type");
      var source := StringField(ms.value, "Source");
      if play.Err? then Err(play.msg)
      else if media.Err? then Err(media.msg)
      else if source.Err? then Err(source.msg)
      else Ok(MediaPlayerState(play.value, media.value, source.value))
  }

  /** A `types.MediaPlayer`: the make and model of its embedded base
      component, and its state. */
  function DecodeMediaPlayer(j: Json): (r: Result<Component>)
    ensures r.Ok? ==> r.value.MediaPlayer?
  {
    var ms := StructMembers(j);
    if ms.Err? then Err(ms.msg)
    else
      var make := StringField(ms.value, "Make");
      var model := StringField(ms.value, "Model");
      var state := DecodeMediaPlayerState(LastBound(ms.value, "State"));
      if make.Err? then Err(make.msg)
      else if model.Err? then Err(model.msg)
      else if state.Err? then Err(state.msg)
      else Ok(MediaPlayer(BaseComponent(make.value, model.value), state.value))
  }

  /** A line as a `pyUpdate`: its `Type` and the media player in `Update`. */
  function DecodeUpdate(j: Json): (r: Result<Component>)
    ensures r.Ok? ==> r.value.MediaPlayer?
  {
    var ms := StructMembers(j);
    if ms.Err? then Err(ms.msg)
    else if StringField(ms.value, "Type").Err? then Err(StringField(ms.value, "Type").msg)
    else DecodeMediaPlayer(LastBound(ms.value, "Update"))
  }

  // ---------------------------------------------------------------------
  // Dispatch

  function DeviceName(ip: string): string { "Chromecast @ " + ip }

  function ChromecastId(ip: string): ExternalDeviceID
  {
    ExternalDeviceID(Manufacturer, "Chromecast @ " + ip)
  }

  /** The device set an update stands for: the one Chromecast, online,
      with the player as its only component. */
  function Snapshot(ip: string, player: Component): map<ExternalDeviceID, Device>
  {
    map[ChromecastId(ip) := Device(DeviceName(ip), true, map[ComponentName := player])]
  }

  /** What reading one line leads to. */
  datatype Step = Stop | Skip | ConsiderSet(devices: map<ExternalDeviceID, Device>)

  function Dispatch(ip: string, line: Result<Json>): (r: Step)
    ensures r == Stop <==>
              line.Err? || DecodeType(line.value).Err?
              || (DecodeType(line.value) == Ok("error") && DecodeError(line.value).Err?)
              || (DecodeType(line.value) == Ok("update") && DecodeUpdate(line.value).Err?)
  {
    if line.Err? then Stop
    else
      var t := DecodeType(line.value);
      if t.Err? then Stop
      else if t.value == "error" then
        if DecodeError(line.value).Err? then Stop else Skip
      else if t.value == "update" then
        var u := DecodeUpdate(line.value);
        if u.Err? then Stop else ConsiderSet(Snapshot(ip, u.value))
      else Skip
  }

  /** A line that is not JSON, not an object (or null), or whose `Type` is
      not a string ends the processing. */
  lemma InvalidLineStops(ip: string, line: Result<Json>)
    requires line.Err? || DecodeType(line.value).Err?
    ensures Dispatch(ip, line) == Stop
  {
  }

  /** Only a decodable "update" line reaches the differ, with the one
      Chromecast device holding the decoded player; errors and lines of
      any other type never do, and other types are skipped. */
  lemma OnlyUpdatesReachTheDiffer(ip: string, line: Result<Json>)
    ensures Dispatch(ip, line).ConsiderSet? <==>
              line.Ok? && DecodeType(line.value) == Ok("update") && DecodeUpdate(line.value).Ok?
    ensures Dispatch(ip, line).ConsiderSet? ==>
              var devices := Dispatch(ip, line).devices;
              devices.Keys == {ChromecastId(ip)}
              && devices[ChromecastId(ip)].name == "Chromecast @ " + ip && devices[ChromecastId(ip)].isOnline
              && devices[ChromecastId(ip)].components.Keys == {ComponentName}
              && devices[ChromecastId(ip)].components[ComponentName] == DecodeUpdate(line.value).value
              && devices[ChromecastId(ip)].components[ComponentName].MediaPlayer?
    ensures line.Ok? && DecodeType(line.value).Ok? && DecodeType(line.value).value !in {"error", "update"} ==>
              Dispatch(ip, line) == Skip
  {
  }

  /** The step of every line. */
  function Steps(ip: string, lines: seq<Result<Json>>): seq<Step>
  {
    seq(|lines|, i requires 0 <= i < |lines| => Dispatch(ip, lines[i]))
  }

  /** The device sets considered along the steps, in order, up to the
      first stop. */
  function ConsideredSteps(steps: seq<Step>): seq<map<ExternalDeviceID, Device>>
  {
    if steps == [] then []
    else match steps[0]
      case Stop => []
      case Skip => ConsideredSteps(steps[1..])
      case ConsiderSet(devices) => [devices] + ConsideredSteps(steps[1..])
  }

  /** One step of ConsideredSteps, taken at position i. */
  lemma ConsideredStepsAt(steps: seq<Step>, i: nat)
    requires i < |steps|
    ensures ConsideredSteps(steps[i..]) == match steps[i]
      case Stop => []
      case Skip => ConsideredSteps(steps[i + 1..])
      case ConsiderSet(devices) => [devices] + ConsideredSteps(steps[i + 1..])
  {
    assert steps[i..][0] == steps[i] && steps[i..][1..] == steps[i + 1..];
  }

  /** The device sets considered so far, after one more step. */
  function Taken(considered: seq<map<ExternalDeviceID, Device>>, step: Step): seq<map<ExternalDeviceID, Device>>
  {
    if step.ConsiderSet? then considered + [step.devices] else considered
  }

  /** Past a step that does not stop, the sets considered so far grow by
      that step's set, if any. */
  lemma ConsideredAdvance(steps: seq<Step>, i: nat, considered: seq<map<ExternalDeviceID, Device>>)
    requires i < |steps| && !steps[i].Stop?
    requires ConsideredSteps(steps) == considered + ConsideredSteps(steps[i..])
    ensures ConsideredSteps(steps) == Taken(considered, steps[i]) + ConsideredSteps(steps[i + 1..])
  {
    ConsideredStepsAt(steps, i);
    if steps[i].ConsiderSet? {
      assert considered + ([steps[i].devices] + ConsideredSteps(steps[i + 1..]))
          == (considered + [steps[i].devices]) + ConsideredSteps(steps[i + 1..]);
    }
  }

  /** The device sets considered while reading `lines`. */
  function Considered(ip: string, lines: seq<Result<Json>>): seq<map<ExternalDeviceID, Device>>
  {
    ConsideredSteps(Steps(ip, lines))
  }

  lemma {:induction false} StepsStopAt(steps: seq<Step>, k: nat)
    requires k < |steps| && steps[k].Stop?
    ensures ConsideredSteps(steps) == ConsideredSteps(steps[..k])
  {
    if k > 0 {
      assert steps[..k][0] == steps[0] && steps[..k][1..] == steps[1..][..k - 1];
      StepsStopAt(steps[1..], k - 1);
    }
  }

  /** Nothing after a line that ends the processing is considered. */
  lemma StopEndsProcessing(ip: string, lines: seq<Result<Json>>, k: nat)
    requires k < |lines| && Dispatch(ip, lines[k]).Stop?
    ensures Considered(ip, lines) == Considered(ip, lines[..k])
  {
    assert Steps(ip, lines[..k]) == Steps(ip, lines)[..k];
    StepsStopAt(Steps(ip, lines), k);
  }

  /** Each set considered comes from a step that considers it. */
  lemma {:induction false} ConsideredFromSteps(steps: seq<Step>)
    ensures forall devices :: devices in ConsideredSteps(steps) ==> ConsiderSet(devices) in steps
  {
    if steps != [] && !steps[0].Stop? {
      ConsideredFromSteps(steps[1..]);
      assert forall st :: st in steps[1..] ==> st in steps;
    }
  }

  /** `devices` is the one Chromecast device at `ip`, online, whose only
      component is a media player. */
  predicate IsSnapshot(ip: string, devices: map<ExternalDeviceID, Device>)
  {
    var id := ChromecastId(ip);
    devices.Keys == {id} && devices[id].name == DeviceName(ip) && devices[id].isOnline
    && devices[id].components.Keys == {ComponentName} && devices[id].components[ComponentName].MediaPlayer?
  }

  /** Every set considered is the one Chromecast device with one media
      player. */
  lemma ConsideredAreSnapshots(ip: string, lines: seq<Result<Json>>)
    ensures forall devices :: devices in Considered(ip, lines) ==> IsSnapshot(ip, devices)
  {
    var steps := Steps(ip, lines);
    ConsideredFromSteps(steps);
    forall devices | devices in Considered(ip, lines)
      ensures IsSnapshot(ip, devices)
    {
      var i :| 0 <= i < |steps| && steps[i] == ConsiderSet(devices);
      assert devices == Snapshot(ip, DecodeUpdate(lines[i].value).value);
    }
  }

  // ---------------------------------------------------------------------
  // The script's messages, as the driver reads them

  function OrEmpty(s: Option<string>): string
  {
    if s.Some? then s.value else ""
  }

  /** The player an update from the script decodes to: a Google Chromecast
      playing video, a `None` state or source read as empty. */
  function ScriptPlayer(r: GetUpdates.Reading): Component
  {
    MediaPlayer(BaseComponent("Google", "Chromecast"), MediaPlayerState(OrEmpty(r.playState), "VIDEO", OrEmpty(r.source)))
  }

  lemma NotFoldEqAt(a: string, b: string, i: nat)
    requires i < |a| && i < |b| && !CharFoldEq(a[i], b[i])
    ensures !FoldEq(a, b)
  {
  }

  /** A key that differs from a field name only in the case of its first
      letter binds to it. */
  lemma FirstLetterFolds(key: string, field: string)
    requires |key| == |field| > 0 && key[1..] == field[1..] && Lower(key[0]) == Lower(field[0])
    ensures FoldEq(key, field)
  {
    forall i | 0 <= i < |key|
      ensures Lower(key[i]) == Lower(field[i])
    {
      if i > 0 {
        assert key[i] == key[1..][i - 1];
      }
    }
  }

  lemma OptStrField(ms: seq<Member>, field: string, i: nat, s: Option<string>)
    requires i < |ms| && FoldEq(ms[i].key, field) && ms[i].value == GetUpdates.OptStr(s)
    requires forall k :: 0 <= k < |ms| && k != i ==> !FoldEq(ms[k].key, field)
    ensures StringField(ms, field) == Ok(OrEmpty(s))
  {
    BoundAt(ms, field, i);
  }

  lemma StrField(ms: seq<Member>, field: string, i: nat, s: string)
    requires i < |ms| && FoldEq(ms[i].key, field) && ms[i].value == JStr(s)
    requires forall k :: 0 <= k < |ms| && k != i ==> !FoldEq(ms[k].key, field)
    ensures StringField(ms, field) == Ok(s)
  {
    BoundAt(ms, field, i);
  }

  lemma ScriptStateDecodes(r: GetUpdates.Reading)
    ensures DecodeMediaPlayerState(GetUpdates.MediaPlayerStateJson(r))
            == Ok(MediaPlayerState(OrEmpty(r.playState), "VIDEO", OrEmpty(r.source)))
  {
    var ms := GetUpdates.MediaPlayerStateJson(r).members;
    assert ms[0].key == "play_state" && ms[1].key == "media_type" && ms[2].key == "source";
    NotFoldEqAt("play_state", "media_type", 0);
    NotFoldEqAt("media_type", "play_state", 0);
    assert FoldEq("play_state", "play_state") && FoldEq("media_type", "media_type");
    FirstLetterFolds("source", "Source");
    OptStrField(ms, "play_state", 0, r.playState);
    StrField(ms, "media_type", 1, "VIDEO");
    OptStrField(ms, "Source", 2, r.source);
  }

  lemma ScriptPlayerDecodes(ip: string, r: GetUpdates.Reading)
    ensures DecodeMediaPlayer(GetUpdates.MediaPlayerComponentJson(ip, r)) == Ok(ScriptPlayer(r))
  {
    var ms := GetUpdates.MediaPlayerComponentJson(ip, r).members;
    ScriptMakeAndModel(ip, r);
    ScriptState(ip, r);
    ScriptStateDecodes(r);
  }

  lemma ScriptMakeAndModel(ip: string, r: GetUpdates.Reading)
    ensures var ms := GetUpdates.MediaPlayerComponentJson(ip, r).members;
            StringField(ms, "Make") == Ok("Google") && StringField(ms, "Model") == Ok("Chromecast")
  {
    var ms := GetUpdates.MediaPlayerComponentJson(ip, r).members;
    assert ms[0].key == "external_id" && ms[1].key == "make" && ms[2].key == "model" && ms[3].key == "state";
    NotFoldEqAt("state", "Model", 0);
    FirstLetterFolds("make", "Make");
    FirstLetterFolds("model", "Model");
    StrField(ms, "Make", 1, "Google");
    StrField(ms, "Model", 2, "Chromecast");
  }

  lemma ScriptState(ip: string, r: GetUpdates.Reading)
    ensures var ms := GetUpdates.MediaPlayerComponentJson(ip, r).members;
            LastBound(ms, "State") == GetUpdates.MediaPlayerStateJson(r)
  {
    var ms := GetUpdates.MediaPlayerComponentJson(ip, r).members;
    assert ms[0].key == "external_id" && ms[1].key == "make" && ms[2].key == "model" && ms[3].key == "state";
    NotFoldEqAt("model", "State", 0);
    FirstLetterFolds("state", "State");
    BoundAt(ms, "State", 3);
  }

  /** An update the script prints reaches the differ as the one Chromecast
      device at the adapter's IP, holding the polled player. */
  lemma ScriptUpdateConsidered(ip: string, scriptIp: string, r: GetUpdates.Reading)
    ensures Dispatch(ip, Ok(GetUpdates.UpdateJson(scriptIp, r))) == ConsiderSet(Snapshot(ip, ScriptPlayer(r)))
  {
    var ms := GetUpdates.UpdateJson(scriptIp, r).members;
    assert ms[0].key == "type" && ms[1].key == "update";
    FirstLetterFolds("type", "Type");
    FirstLetterFolds("update", "Update");
    StrField(ms, "Type", 0, "update");
    BoundAt(ms, "Update", 1);
    ScriptPlayerDecodes(scriptIp, r);
  }

  /** An error the script prints is read and skipped. */
  lemma ScriptErrorSkipped(ip: string, msg: string)
    ensures Dispatch(ip, Ok(GetUpdates.ErrorJson(msg))) == Skip
  {
    var ms := GetUpdates.ErrorJson(msg).members;
    assert ms[0].key == "type" && ms[1].key == "error";
    FirstLetterFolds("type", "Type");
    FirstLetterFolds("error", "Error");
    StrField(ms, "Type", 0, "error");
    StrField(ms, "Error", 1, msg);
  }

  function AsLines(out: seq<Json>): (lines: seq<Result<Json>>)
    ensures |lines| == |out| && forall i :: 0 <= i < |out| ==> lines[i] == Ok(out[i])
  {
    if out == [] then [] else [Ok(out[0])] + AsLines(out[1..])
  }

  /** One snapshot per poll, up to the first failed poll. */
  function Snapshots(ip: string, polls: seq<GetUpdates.Poll>): (r: seq<map<ExternalDeviceID, Device>>)
    ensures |r| == GetUpdates.FirstFailure(polls)
    ensures forall i :: 0 <= i < |r| ==> r[i] == Snapshot(ip, ScriptPlayer(polls[i].reading))
  {
    if polls == [] || polls[0].Raised? then []
    else [Snapshot(ip, ScriptPlayer(polls[0].reading))] + Snapshots(ip, polls[1..])
  }

  lemma ConsideredCons(ip: string, line: Result<Json>, rest: seq<Result<Json>>)
    ensures Considered(ip, [line] + rest) ==
              match Dispatch(ip, line)
              case Stop => []
              case Skip => Considered(ip, rest)
              case ConsiderSet(devices) => [devices] + Considered(ip, rest)
  {
    var steps := Steps(ip, [line] + rest);
    assert steps[0] == Dispatch(ip, line);
    assert steps[1..] == Steps(ip, rest);
  }

  /** End to end: the driver considers one snapshot per successful poll,
      in order, up to the first failed poll, whose error it skips. */
  lemma {:induction false} ScriptTraceConsidered(ip: string, scriptIp: string, polls: seq<GetUpdates.Poll>)
    ensures Considered(ip, AsLines(GetUpdates.PollTrace(scriptIp, polls).0)) == Snapshots(ip, polls)
  {
    if polls != [] {
      match polls[0]
      case Raised(None) =>
      case Raised(Some(e)) =>
        var msg := GetUpdates.FailureMessage(e);
        ScriptErrorSkipped(ip, msg);
        assert AsLines(GetUpdates.PollTrace(scriptIp, polls).0) == [Ok(GetUpdates.ErrorJson(msg))] + [];
        ConsideredCons(ip, Ok(GetUpdates.ErrorJson(msg)), []);
      case Read(r) =>
        var rest := GetUpdates.PollTrace(scriptIp, polls[1..]).0;
        ScriptUpdateConsidered(ip, scriptIp, r);
        ScriptTraceConsidered(ip, scriptIp, polls[1..]);
        assert GetUpdates.PollTrace(scriptIp, polls).0 == [GetUpdates.UpdateJson(scriptIp, r)] + rest;
        assert AsLines([GetUpdates.UpdateJson(scriptIp, r)] + rest)
               == [Ok(GetUpdates.UpdateJson(scriptIp, r))] + AsLines(rest);
        ConsideredCons(ip, Ok(GetUpdates.UpdateJson(scriptIp, r)), AsLines(rest));
    }
  }

  // ---------------------------------------------------------------------
  // The adapter

  class ChromecastAdapter {
    /** The IP of the context the adapter handles, in its textual form. */
    const ip: string
    const differ: AllAtOnceDiffer

    /** A new adapter whose differ sends its events to `updateChan`. */
    constructor NewAdapter(ip: string, updateChan: Chan)
      ensures this.ip == ip && fresh(differ)
      ensures differ.dest == Some(updateChan) && differ.lastKnownDevices == map[] && differ.sent == []
    {
      this.ip := ip;
      var d := new AllAtOnceDiffer();
      differ := d;
      new;
      var _ := d.SetOutput(Some(updateChan));
    }

    /** Since the differ knew `initial` and had sent `sent0`, it has
        considered the snapshots `considered`: it sent one batch of events
        per snapshot, each the diff against the snapshot before, and keeps
        the last snapshot. */
    ghost predicate Reported(initial: map<ExternalDeviceID, Device>, sent0: seq<DifferEvent>,
                             considered: seq<map<ExternalDeviceID, Device>>,
                             batches: seq<(seq<DifferEvent>, seq<DifferEvent>)>)
      reads differ
    {
      && differ.lastKnownDevices == Previous(initial, considered, |considered|)
      && IsDiffTrace(initial, considered, batches)
      && differ.sent == sent0 + Flatten(batches)
    }

    /** Reads the script's lines in order, feeding each update's snapshot
        to the differ, and stops at the first line that cannot be read.
        The snapshots considered are returned; the differ sends, in order,
        one batch of events per snapshot, each the diff of that snapshot
        against the one before, and keeps the last of them. */
    method Serve(lines: seq<Result<Json>>)
        returns (considered: seq<map<ExternalDeviceID, Device>>, ghost batches: seq<(seq<DifferEvent>, seq<DifferEvent>)>)
      requires differ.dest.Some?
      modifies differ`lastKnownDevices, differ`sent
      ensures considered == Considered(ip, lines)
      ensures IsDiffTrace(old(differ.lastKnownDevices), considered, batches)
      ensures differ.sent == old(differ.sent) + Flatten(batches)
      ensures differ.lastKnownDevices == Previous(old(differ.lastKnownDevices), considered, |considered|)
    {
      considered, batches := [], [];
      ghost var initial := differ.lastKnownDevices;
      ghost var sent0 := differ.sent;
      var steps := Steps(ip, lines);
      var i := 0;
      assert steps[i..] == steps;
      while i < |steps|
        invariant 0 <= i <= |lines|
        invariant differ.dest.Some?
        invariant ConsideredSteps(steps) == considered + ConsideredSteps(steps[i..])
        invariant Reported(initial, sent0, considered, batches)
      {
        var step := steps[i];
        if step.Stop? {
          ConsideredStepsAt(steps, i);
          assert considered + [] == considered;
          return;
        }
        ConsideredAdvance(steps, i, considered);
        considered, batches := Feed(step, initial, sent0, considered, batches);
        i := i + 1;
      }
      assert steps[i..] == [] && considered + [] == considered;
    }

    /** One line of Serve's loop that does not stop it: a snapshot is
        considered, extending the trace of batches the differ has sent
        since `sent0`; a skipped line changes nothing. */
    method Feed(step: Step, ghost initial: map<ExternalDeviceID, Device>, ghost sent0: seq<DifferEvent>,
                considered: seq<map<ExternalDeviceID, Device>>, ghost batches: seq<(seq<DifferEvent>, seq<DifferEvent>)>)
        returns (considered': seq<map<ExternalDeviceID, Device>>, ghost batches': seq<(seq<DifferEvent>, seq<DifferEvent>)>)
      requires differ.dest.Some?
      requires Reported(initial, sent0, considered, batches)
      modifies differ`lastKnownDevices, differ`sent
      ensures considered' == Taken(considered, step)
      ensures Reported(initial, sent0, considered', batches')
    {
      considered', batches' := considered, batches;
      if step.ConsiderSet? {
        var ups, dels := ConsiderSnapshot(step.devices);
        DiffTraceSnoc(initial, considered, batches, step.devices, ups, dels);
        considered', batches' := considered + [step.devices], batches + [(ups, dels)];
      } else {
        assert considered + [] == considered;
      }
    }

    /** Hands one snapshot to the differ, which sends the updates and then
        the deletes that lead from its last-known set to the snapshot, and
        keeps the snapshot. */
    method ConsiderSnapshot(devices: map<ExternalDeviceID, Device>) returns (ups: seq<DifferEvent>, dels: seq<DifferEvent>)
      requires differ.dest.Some?
      modifies differ`lastKnownDevices, differ`sent
      ensures IsDiff(old(differ.lastKnownDevices), devices, ups, dels)
      ensures differ.lastKnownDevices == devices && differ.sent == old(differ.sent) + ups + dels
    {
      ups, dels := differ.Consider(devices);
    }

    /** The Chromecast adapter enacts no intent. */
    method EnactIntent(target: ExternalComponentID, intent: Intent) returns (err: Outcome)
      ensures err.Fail?
    {
      return Fail("unhandled intent type");
    }
  }
}
