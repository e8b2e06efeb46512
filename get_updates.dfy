/** The Chromecast polling script (adapter/chromecast/get_updates.py, a
    Python 2 program): it resolves its arguments, looks the Chromecast up,
    then prints one JSON message per line, an update per poll, until a poll
    fails. The device lookup and the polls are oracles: whether a device
    was found (or the lookup raised), and what each poll read or the
    message of the exception it raised. The printed messages are kept as
    JSON values, one per line. */
module GetUpdates {
  import opened Common
  import opened Json

  const DefaultTimeBetweenPolls: nat := 5
  const ExitNotEnoughParams: int := -1
  const ExitChromecastNotFound: int := -2
  const ExitInvalidArguments: int := -3
  /** The status Python exits with after an uncaught exception. */
  const ExitUncaught: int := 1

  const TypeError := "error"
  const TypeUpdate := "update"

  const UsageMessage := "USAGE: sift_adapter.py [IP address] ([seconds between polls])"
  const IntervalMessage := "third argument (seconds between polls) must be numerical"

  // ---------------------------------------------------------------------
  // Messages

  /** `Error(msg)`, serialised from its attributes. */
  function ErrorJson(msg: string): Json
  {
    JObj([Member("type", JStr(TypeError)), Member("error", JStr(msg))])
  }

  /** A Python string attribute that may be `None`. */
  function OptStr(s: Option<string>): Json
  {
    if s.Some? then JStr(s.value) else JNull
  }

  /** What one poll read from the Chromecast: the media controller's player
      state and the display name of the running application. */
  datatype Reading = Reading(playState: Option<string>, source: Option<string>)

  function MediaPlayerStateJson(r: Reading): Json
  {
    JObj([Member("play_state", OptStr(r.playState)), Member("media_type", JStr("VIDEO")),
          Member("source", OptStr(r.source))])
  }

  function MediaPlayerComponentJson(ip: string, r: Reading): Json
  {
    JObj([Member("external_id", JStr(ip)), Member("make", JStr("Google")), Member("model", JStr("Chromecast")),
          Member("state", MediaPlayerStateJson(r))])
  }

  /** `Update(MediaPlayerComponent(ip, ...))`, serialised from its
      attributes. */
  function UpdateJson(ip: string, r: Reading): Json
  {
    JObj([Member("type", JStr(TypeUpdate)), Member("update", MediaPlayerComponentJson(ip, r))])
  }

  /** The value of the first member named exactly `key`, if there is one. */
  function MemberValue(ms: seq<Member>, key: string): Option<Json>
  {
    if ms == [] then None
    else if ms[0].key == key then Some(ms[0].value)
    else MemberValue(ms[1..], key)
  }

  function Field(j: Json, key: string): Option<Json>
  {
    if j.JObj? then MemberValue(j.members, key) else None
  }

  lemma {:induction false} MemberValueAt(ms: seq<Member>, i: nat, key: string)
    requires i < |ms| && ms[i].key == key && forall k :: 0 <= k < i ==> ms[k].key != key
    ensures MemberValue(ms, key) == Some(ms[i].value)
  {
    if i > 0 {
      MemberValueAt(ms[1..], i - 1, key);
    }
  }

  /** A message the script prints: an object with distinct keys whose
      `type` is "error", holding the `error` text, or "update", holding a
      Google Chromecast video player whose external id is the IP. */
  predicate IsMessage(j: Json, ip: string)
  {
    j.JObj? && (forall a, b :: 0 <= a < b < |j.members| ==> j.members[a].key != j.members[b].key)
    && (Field(j, "type") == Some(JStr(TypeError)) || Field(j, "type") == Some(JStr(TypeUpdate)))
    && (Field(j, "type") == Some(JStr(TypeError)) ==> Field(j, "error").Some? && Field(j, "error").value.JStr?)
    && (Field(j, "type") == Some(JStr(TypeUpdate)) ==>
          Field(j, "update").Some?
          && var u := Field(j, "update").value;
             Field(u, "external_id") == Some(JStr(ip)) && Field(u, "make") == Some(JStr("Google"))
             && Field(u, "model") == Some(JStr("Chromecast"))
             && Field(u, "state").Some? && Field(Field(u, "state").value, "media_type") == Some(JStr("VIDEO")))
  }

  lemma ErrorIsMessage(msg: string, ip: string)
    ensures IsMessage(ErrorJson(msg), ip)
    ensures Field(ErrorJson(msg), "error") == Some(JStr(msg))
  {
    var ms := ErrorJson(msg).members;
    MemberValueAt(ms, 0, "type");
    MemberValueAt(ms, 1, "error");
  }

  lemma UpdateIsMessage(ip: string, r: Reading)
    ensures IsMessage(UpdateJson(ip, r), ip)
  {
    var ms := UpdateJson(ip, r).members;
    MemberValueAt(ms, 0, "type");
    MemberValueAt(ms, 1, "update");
    var us := MediaPlayerComponentJson(ip, r).members;
    MemberValueAt(us, 0, "external_id");
    MemberValueAt(us, 1, "make");
    MemberValueAt(us, 2, "model");
    MemberValueAt(us, 3, "state");
    MemberValueAt(MediaPlayerStateJson(r).members, 1, "media_type");
  }

  // ---------------------------------------------------------------------
  // Arguments

  predicate IsSpace(c: char)
  {
    c == ' ' || c == '\t' || c == '\n' || c == '\r' || c as int == 11 || c as int == 12
  }

  function TrimLeft(s: string): string
  {
    if s != [] && IsSpace(s[0]) then TrimLeft(s[1..]) else s
  }

  function TrimRight(s: string): string
  {
    if s != [] && IsSpace(s[|s| - 1]) then TrimRight(s[..|s| - 1]) else s
  }

  function StripSign(s: string): string
  {
    if s != [] && (s[0] == '+' || s[0] == '-') then s[1..] else s
  }

  /** The length of the run of decimal digits that starts `s`. */
  function DigitRun(s: string): (n: nat)
    ensures n <= |s| && AllDigits(s[..n])
    ensures n < |s| ==> !IsDigit(s[n])
  {
    if s == [] || !IsDigit(s[0]) then 0
    else
      var n := 1 + DigitRun(s[1..]);
      assert s[..n] == [s[0]] + s[1..][..n - 1];
      n
  }

  /** An optional exponent: `e` or `E`, an optional sign, digits. */
  predicate IsExponent(s: string)
  {
    s == [] || ((s[0] == 'e' || s[0] == 'E') && StripSign(s[1..]) != [] && AllDigits(StripSign(s[1..])))
  }

  /** Digits with an optional fraction (at least one digit on either side
      of the point), then an optional exponent. */
  predicate IsUnsignedNumber(t: string)
  {
    var a := DigitRun(t);
    var r := t[a..];
    if r != [] && r[0] == '.' then
      var f := DigitRun(r[1..]);
      (a > 0 || f > 0) && IsExponent(r[1..][f..])
    else a > 0 && IsExponent(r)
  }

  function LowerAll(s: string): (l: string)
    ensures |l| == |s|
  {
    seq(|s|, i requires 0 <= i < |s| => Lower(s[i]))
  }

  /** The text Python 2's `float()` accepts: surrounding whitespace, a
      sign, and a decimal number, or "inf", "infinity" or "nan" in any
      case. */
  predicate IsFloatLiteral(s: string)
  {
    var t := StripSign(TrimRight(TrimLeft(s)));
    IsUnsignedNumber(t) || LowerAll(t) in {"inf", "infinity", "nan"}
  }

  /** Whole numbers written in decimal are accepted, so the default
      interval could be passed explicitly. */
  lemma {:induction false} WholeNumberIsFloatLiteral(n: int)
    ensures IsFloatLiteral(Itoa(n))
  {
    var s := Itoa(n);
    var digits := NatToString(if n < 0 then -n else n);
    assert TrimLeft(s) == s;
    assert TrimRight(s) == s;
    assert StripSign(s) == digits;
    var a := DigitRun(digits);
    assert a == |digits|;
    assert digits[a..] == [];
  }

  /** Python 2 accepts signs and surrounding whitespace... */
  lemma PaddedSignedLiteralAccepted()
    ensures IsFloatLiteral(" -2.5e3 ")
  {
    assert TrimLeft(" -2.5e3 ") == TrimLeft("-2.5e3 ") == "-2.5e3 ";
    assert TrimRight("-2.5e3 ") == TrimRight("-2.5e3") == "-2.5e3";
    assert StripSign("-2.5e3") == "2.5e3";
    ScientificNumber();
  }

  lemma ScientificNumber()
    ensures IsUnsignedNumber("2.5e3")
  {
    assert DigitRun("2.5e3") == 1 && "2.5e3"[1..] == ".5e3";
    assert DigitRun("5e3") == 1 && "5e3"[1..] == "e3";
    assert IsExponent("e3") by {
      assert "e3"[1..] == "3" && StripSign("3") == "3";
    }
  }

  /** ... a bare fraction or integer part ... */
  lemma BareFractionAccepted()
    ensures IsFloatLiteral(".5") && IsFloatLiteral("7.")
  {
    assert DigitRun(".5") == 0 && DigitRun("5") == 1;
    assert DigitRun("7.") == 1 && DigitRun("") == 0;
  }

  /** ... and the special values in any case. */
  lemma SpecialValueAccepted()
    ensures IsFloatLiteral("+Inf")
  {
    assert LowerAll("Inf") == "inf";
  }

  /** Python 2 rejects the empty text, a lone point, a dangling exponent
      and words. */
  lemma FloatLiteralsRejected()
    ensures !IsFloatLiteral("") && !IsFloatLiteral(".") && !IsFloatLiteral("1e") && !IsFloatLiteral("five")
  {
    LonePointRejected();
    DanglingExponentRejected();
    WordRejected();
  }

  lemma LonePointRejected()
    ensures !IsFloatLiteral(".")
  {
    assert DigitRun(".") == 0 && DigitRun("") == 0;
    assert LowerAll(".") == ".";
  }

  lemma DanglingExponentRejected()
    ensures !IsFloatLiteral("1e")
  {
    assert TrimLeft("1e") == "1e" && TrimRight("1e") == "1e";
    assert DigitRun("1e") == 1 && "1e"[1..] == "e";
    assert !IsExponent("e");
  }

  lemma WordRejected()
    ensures !IsFloatLiteral("five")
  {
    assert TrimLeft("five") == "five" && TrimRight("five") == "five";
    assert DigitRun("five") == 0;
    assert LowerAll("five") == "five";
  }

  /** The seconds between polls: the default, or the literal given. */
  datatype Interval = DefaultInterval | Given(literal: string)

  function Seconds(i: Interval): string
  {
    if i.DefaultInterval? then Itoa(DefaultTimeBetweenPolls) else i.literal
  }

  /** The resolved arguments, or the one message printed and the exit code
      when they cannot be resolved. */
  datatype Resolution = Resolved(ip: string, interval: Interval) | Exit(message: Json, code: int)

  /** argv[0] is the script; argv[1] the Chromecast's IP; argv[2], when
      present, the seconds between polls. */
  function ResolveArgs(argv: seq<string>): (r: Resolution)
    ensures r.Exit? <==> |argv| < 2 || (|argv| > 2 && !IsFloatLiteral(argv[2]))
    ensures r.Exit? ==> r.code in {ExitNotEnoughParams, ExitInvalidArguments}
    ensures r.Exit? ==> (r.code == ExitNotEnoughParams <==> |argv| < 2)
    ensures r.Resolved? ==> r.ip == argv[1] && (r.interval.DefaultInterval? <==> |argv| == 2)
    ensures r.Resolved? ==> IsFloatLiteral(Seconds(r.interval))
  {
    if |argv| < 2 then Exit(ErrorJson(UsageMessage), ExitNotEnoughParams)
    else if |argv| > 2 then
      if IsFloatLiteral(argv[2]) then Resolved(argv[1], Given(argv[2]))
      else Exit(ErrorJson(IntervalMessage), ExitInvalidArguments)
    else
      WholeNumberIsFloatLiteral(DefaultTimeBetweenPolls);
      Resolved(argv[1], DefaultInterval)
  }

  // ---------------------------------------------------------------------
  // The run

  /** What looking the Chromecast up and waiting for it gave: a device, no
      device, or an exception (neither call is guarded). */
  datatype Lookup = Found | NotFound | LookupRaised

  /** What one poll gave: a reading, or an exception whose `message`
      attribute is a string (`Some`) or some other value (`None`), which
      the error handler cannot append to its text. */
  datatype Poll = Read(reading: Reading) | Raised(message: Option<string>)

  function FailureMessage(e: string): string
  {
    "error trying to read Chromecast state " + e
  }

  function NotFoundMessage(ip: string): string
  {
    "could not find a Chromecast matching ip " + ip
  }

  /** What the poll loop prints, and its exit code: an update per poll
      until one raises, which prints an error and exits (or, when the
      exception's message is not a string, crashes without printing); None
      when every poll given succeeded and the loop goes on. */
  function PollTrace(ip: string, polls: seq<Poll>): (seq<Json>, Option<int>)
  {
    if polls == [] then ([], None)
    else match polls[0]
      case Raised(Some(e)) => ([ErrorJson(FailureMessage(e))], Some(ExitChromecastNotFound))
      case Raised(None) => ([], Some(ExitUncaught))
      case Read(reading) =>
        var rest := PollTrace(ip, polls[1..]);
        ([UpdateJson(ip, reading)] + rest.0, rest.1)
  }

  /** What the whole script prints, and its exit code. */
  function Output(argv: seq<string>, lookup: Lookup, polls: seq<Poll>): (seq<Json>, Option<int>)
  {
    match ResolveArgs(argv)
    case Exit(message, code) => ([message], Some(code))
    case Resolved(ip, _) =>
      match lookup
      case LookupRaised => ([], Some(ExitUncaught))
      case NotFound => ([ErrorJson(NotFoundMessage(ip))], Some(ExitChromecastNotFound))
      case Found => PollTrace(ip, polls)
  }

  /** Runs the script: `lookup` says whether a Chromecast answered at the
      IP, `polls` what each poll read, or the exception it raised. */
  method Run(argv: seq<string>, lookup: Lookup, polls: seq<Poll>)
      returns (out: seq<Json>, exit: Option<int>)
    ensures (out, exit) == Output(argv, lookup, polls)
  {
    var args := ResolveArgs(argv);
    if args.Exit? {
      return [args.message], Some(args.code);
    }
    var ip := args.ip;
    match lookup
    case LookupRaised =>
      return [], Some(ExitUncaught);
    case NotFound =>
      return [ErrorJson(NotFoundMessage(ip))], Some(ExitChromecastNotFound);
    case Found =>
    out := [];
    var i := 0;
    assert polls[i..] == polls;
    while i < |polls|
      invariant 0 <= i <= |polls|
      invariant PollTrace(ip, polls).0 == out + PollTrace(ip, polls[i..]).0
      invariant PollTrace(ip, polls).1 == PollTrace(ip, polls[i..]).1
    {
      assert polls[i..][0] == polls[i];
      match polls[i]
      case Raised(Some(e)) =>
        assert PollTrace(ip, polls[i..]) == ([ErrorJson(FailureMessage(e))], Some(ExitChromecastNotFound));
        out := out + [ErrorJson(FailureMessage(e))];
        assert PollTrace(ip, polls) == (out, Some(ExitChromecastNotFound));
        return out, Some(ExitChromecastNotFound);
      case Raised(None) =>
        assert PollTrace(ip, polls[i..]) == ([], Some(ExitUncaught));
        assert out + [] == out;
        return out, Some(ExitUncaught);
      case Read(reading) =>
        assert polls[i..][1..] == polls[i + 1..];
        out := out + [UpdateJson(ip, reading)];
      i := i + 1;
    }
    assert polls[i..] == [] && out + [] == out;
    exit := None;
    assert PollTrace(ip, polls) == (out, exit);
  }

  /** The index of the first poll that raised, or the number of polls when
      none did. */
  function FirstFailure(polls: seq<Poll>): (n: nat)
    ensures n <= |polls|
    ensures forall i :: 0 <= i < n ==> polls[i].Read?
    ensures n < |polls| ==> polls[n].Raised?
  {
    if polls == [] || polls[0].Raised? then 0 else 1 + FirstFailure(polls[1..])
  }

  /** The poll loop prints one update per poll before the first failure,
      then, if a poll failed, its error, and exits only then: with the
      not-found code, or with Python's status for an uncaught exception
      and no error line when the exception's message is not a string. */
  lemma {:induction false} PollTraceShape(ip: string, polls: seq<Poll>)
    ensures var (out, exit) := PollTrace(ip, polls);
            var n := FirstFailure(polls);
            n <= |out|
            && (forall i :: 0 <= i < n ==> out[i] == UpdateJson(ip, polls[i].reading))
            && (n < |polls| && polls[n].message.Some? ==>
                  |out| == n + 1 && out[n] == ErrorJson(FailureMessage(polls[n].message.value))
                  && exit == Some(ExitChromecastNotFound))
            && (n < |polls| && polls[n].message.None? ==> |out| == n && exit == Some(ExitUncaught))
            && (n == |polls| ==> |out| == n && exit == None)
  {
    if polls != [] && polls[0].Read? {
      PollTraceShape(ip, polls[1..]);
    }
  }

  /** A failure on poll N (counting from 1) leaves N-1 updates, then one
      error message, then the exit code for a missing Chromecast; when the
      exception's message is not a string, the N-1 updates and Python's
      status for an uncaught exception. */
  lemma FailureOnPollN(ip: string, polls: seq<Poll>, n: nat)
    requires 1 <= n <= |polls| && polls[n - 1].Raised? && forall i :: 0 <= i < n - 1 ==> polls[i].Read?
    ensures var (out, exit) := PollTrace(ip, polls);
            n - 1 <= |out|
            && (forall i :: 0 <= i < n - 1 ==> Field(out[i], "type") == Some(JStr(TypeUpdate)))
            && (polls[n - 1].message.Some? ==>
                  |out| == n && exit == Some(ExitChromecastNotFound) && Field(out[n - 1], "type") == Some(JStr(TypeError)))
            && (polls[n - 1].message.None? ==> |out| == n - 1 && exit == Some(ExitUncaught))
  {
    PollTraceShape(ip, polls);
    var out := PollTrace(ip, polls).0;
    assert FirstFailure(polls) == n - 1;
    forall i | 0 <= i < n - 1
      ensures Field(out[i], "type") == Some(JStr(TypeUpdate))
    {
      MemberValueAt(out[i].members, 0, "type");
    }
    if polls[n - 1].message.Some? {
      MemberValueAt(out[n - 1].members, 0, "type");
    }
  }

  /** Every line the script prints is an error or an update message. */
  lemma {:induction false} PollTraceMessages(ip: string, polls: seq<Poll>)
    ensures forall j :: j in PollTrace(ip, polls).0 ==> IsMessage(j, ip)
  {
    if polls != [] {
      match polls[0]
      case Raised(Some(e)) => ErrorIsMessage(FailureMessage(e), ip);
      case Raised(None) =>
      case Read(reading) =>
        UpdateIsMessage(ip, reading);
        PollTraceMessages(ip, polls[1..]);
    }
  }

  lemma OutputMessages(argv: seq<string>, lookup: Lookup, polls: seq<Poll>)
    ensures forall j :: j in Output(argv, lookup, polls).0 ==> IsMessage(j, if |argv| >= 2 then argv[1] else "")
  {
    var ip := if |argv| >= 2 then argv[1] else "";
    match ResolveArgs(argv)
    case Exit(_, code) =>
      ErrorIsMessage(if code == ExitNotEnoughParams then UsageMessage else IntervalMessage, ip);
    case Resolved(_, _) =>
      ErrorIsMessage(NotFoundMessage(ip), ip);
      PollTraceMessages(ip, polls);
  }

  /** The script never exits with success: every exit code is one of its
      three error codes, or Python's status for an uncaught exception,
      which it reaches, printing nothing more, exactly when the lookup
      raised or a poll's exception message is not a string. Without an IP
      it never looks a device up. */
  lemma ExitCodes(argv: seq<string>, lookup: Lookup, polls: seq<Poll>)
    ensures var exit := Output(argv, lookup, polls).1;
            exit.Some? ==> exit.value in {ExitNotEnoughParams, ExitChromecastNotFound, ExitInvalidArguments, ExitUncaught}
    ensures Output(argv, lookup, polls).1 == Some(ExitUncaught) <==>
              ResolveArgs(argv).Resolved?
              && (lookup.LookupRaised?
                  || (lookup.Found? && FirstFailure(polls) < |polls| && polls[FirstFailure(polls)].message.None?))
    ensures |argv| < 2 ==> Output(argv, lookup, polls) == ([ErrorJson(UsageMessage)], Some(ExitNotEnoughParams))
    ensures ResolveArgs(argv).Resolved? && lookup.NotFound? ==> Output(argv, lookup, polls).1 == Some(ExitChromecastNotFound)
  {
    if ResolveArgs(argv).Resolved? && lookup.Found? {
      PollTraceShape(argv[1], polls);
    }
  }
}
