/** The receiving half of a stream as an automaton over single bytes: authentication token, header
    line, model blob, payload, checksum line, footer line. It is the reference that the buffered
    reader (module StreamObject) refines. */
module Receiver {
  import opened Options
  import opened CStrings
  import opened Headers
  import Markov

  datatype Phase = Idle | Authenticate | Header | Model | Payload | Checksum | Footer | Success | Failed

  /** What processing the header or the model tells the sending half to do. */
  datatype Cue = Nothing | Respond | Quit

  /** `line` is the unfinished line, `blob` the unfinished model text, `digested` the payload fed
      to the checksum. */
  datatype Rx = Rx(
    commander: bool,
    phase: Phase,
    error: StreamError,
    cue: Cue,
    auth: nat,
    line: string,
    blob: string,
    info: Info,
    loaded: Option<Markov.Model>,
    payload: nat,
    digested: string,
    checksumSeen: bool)

  const DIGEST_LENGTH: nat := 32

  function Fail(rx: Rx, e: StreamError): Rx {
    rx.(phase := Failed, error := e, line := "")
  }

  function EnterFooter(rx: Rx): Rx {
    if rx.info.sizes.recv == 0 && !rx.info.sizes.recvZero then rx.(phase := Success, line := "")
    else rx.(phase := Footer, line := "")
  }

  function EnterChecksum(rx: Rx): Rx {
    if rx.info.sizes.recv == 0 then EnterFooter(rx) else rx.(phase := Checksum, line := "")
  }

  function EnterPayload(rx: Rx): Rx {
    if rx.info.sizes.recv == 0 && rx.info.sizes.recvZero then EnterChecksum(rx) else rx.(phase := Payload)
  }

  /** Entering a phase overwrites the phase it is entered from. */
  lemma EnterTwice(rx: Rx)
    ensures EnterChecksum(rx.(phase := Checksum)) == EnterChecksum(rx)
    ensures EnterPayload(rx.(phase := Payload)) == EnterPayload(rx)
  {
  }

  /** The state after a header with verdict e, its values and its model installed. */
  function HeaderVerdict(rx: Rx, e: StreamError): Rx {
    if e != NoError then Fail(rx, e).(cue := if rx.commander then Quit else Respond)
    else if rx.commander then EnterPayload(rx)
    else if rx.loaded.Some? then EnterPayload(rx.(cue := Respond))
    else rx.(phase := Model, blob := "")
  }

  function ScanHeader(info: Info, commander: bool, line: string): Scan {
    ApplyFields(StartScan(info), commander, Split(CString(line), ' '))
  }

  function Install(rx: Rx, info: Info, m: Option<Markov.Model>): Rx {
    rx.(info := info, loaded := if m.Some? then m else rx.loaded, line := "")
  }

  function HeaderDone(env: Env, rx: Rx, line: string): Rx {
    var s := ScanHeader(rx.info, rx.commander, line);
    var verdict := Conclude(env, s, rx.commander);
    HeaderVerdict(Install(rx, s.info, verdict.1), verdict.0)
  }

  function ModelDone(env: Env, rx: Rx, blob: string): Rx {
    var m := env.fromText(blob, rx.info.modelSeed);
    var r := rx.(blob := "", loaded := m, cue := Respond);
    if m.Some? then EnterPayload(r) else Fail(r, BadModel)
  }

  /** The checksum line is accepted when its second piece starts with the computed digest. */
  predicate ChecksumMatches(env: Env, digested: string, line: string) {
    var parts := Split(CString(line), ' ');
    |parts| >= 2 && CaseEqN(env.md5(digested), parts[1], DIGEST_LENGTH)
  }

  function ChecksumDone(env: Env, rx: Rx, line: string): Rx {
    var r := rx.(checksumSeen := true, line := "");
    if ChecksumMatches(env, rx.digested, line) then EnterFooter(r) else Fail(r, BadChecksum)
  }

  function FooterDone(rx: Rx, line: string): Rx {
    var r := rx.(line := "");
    if CaseEqN(CString(line), "FIN", 3) then r.(phase := Success) else Fail(r, BadFooter)
  }

  predicate LinePhase(p: Phase) {
    p.Header? || p.Checksum? || p.Footer?
  }

  predicate Stopped(p: Phase) {
    p.Idle? || p.Success? || p.Failed?
  }

  /** The phases before the payload. */
  predicate Early(p: Phase) {
    p.Idle? || p.Authenticate? || p.Header? || p.Model?
  }

  function LineDone(env: Env, rx: Rx, line: string): Rx
    requires LinePhase(rx.phase)
  {
    match rx.phase
    case Header => HeaderDone(env, rx, line)
    case Checksum => ChecksumDone(env, rx, line)
    case Footer => FooterDone(rx, line)
  }

  function StepAuth(rx: Rx, c: char): Rx {
    if rx.auth >= |PASSWORD| then rx.(phase := Header, line := "")
    else if c == PASSWORD[rx.auth] then rx.(auth := rx.auth + 1)
    else Fail(rx, BadAuth)
  }

  function StepModel(env: Env, rx: Rx, c: char): Rx {
    if |rx.blob| + 1 >= rx.info.modelSize then ModelDone(env, rx, rx.blob + [c]) else rx.(blob := rx.blob + [c])
  }

  function TakePayload(rx: Rx, data: string): Rx {
    var r := rx.(payload := rx.payload + |data|);
    if rx.info.sizes.recv > 0 then r.(digested := rx.digested + data) else r
  }

  /** The payload is complete when its size is known and reached. */
  predicate PayloadComplete(rx: Rx) {
    rx.info.sizes.recv > 0 && rx.payload >= rx.info.sizes.recv
  }

  function StepPayload(rx: Rx, c: char): Rx {
    var r := TakePayload(rx, [c]);
    if PayloadComplete(r) then EnterChecksum(r) else r
  }

  function Step(env: Env, rx: Rx, c: char): Rx {
    match rx.phase
    case Authenticate => StepAuth(rx, c)
    case Model => StepModel(env, rx, c)
    case Payload => StepPayload(rx, c)
    case Idle => rx
    case Success => rx
    case Failed => rx
    case _ => if c == NEWLINE then LineDone(env, rx, rx.line) else rx.(line := rx.line + [c])
  }

  function Run(env: Env, rx: Rx, s: string): Rx
    decreases |s|
  {
    if s == "" then rx else Run(env, Step(env, rx, s[0]), s[1..])
  }

  /** End of file: a valid end only where the payload size is unknown. */
  function Eof(rx: Rx): Rx {
    if Stopped(rx.phase) then rx
    else if rx.phase == Payload && rx.info.sizes.recv == 0 then EnterChecksum(rx)
    else Fail(rx, ReadEof)
  }

  // ---- Runs over pieces ----

  lemma RunNothing(env: Env, rx: Rx)
    ensures Run(env, rx, "") == rx
  {
  }

  /** Reading a string in two pieces is reading it in one. */
  lemma {:induction false} RunAppend(env: Env, rx: Rx, a: string, b: string)
    ensures Run(env, rx, a + b) == Run(env, Run(env, rx, a), b)
    decreases |a|
  {
    if a == "" {
      assert a + b == b;
    } else {
      assert (a + b)[1..] == a[1..] + b;
      RunAppend(env, Step(env, rx, a[0]), a[1..], b);
    }
  }

  lemma {:induction false} RunStopped(env: Env, rx: Rx, s: string)
    requires Stopped(rx.phase)
    ensures Run(env, rx, s) == rx
    decreases |s|
  {
    if s != "" { RunStopped(env, rx, s[1..]); }
  }

  lemma {:induction false} RunText(env: Env, rx: Rx, s: string)
    requires LinePhase(rx.phase) && NEWLINE !in s
    ensures Run(env, rx, s) == rx.(line := rx.line + s)
    decreases |s|
  {
    if s == "" {
      assert rx.line + s == rx.line;
    } else {
      var r := rx.(line := rx.line + [s[0]]);
      RunText(env, r, s[1..]);
      assert rx.line + s == r.line + s[1..];
    }
  }

  lemma RunLine(env: Env, rx: Rx, s: string)
    requires LinePhase(rx.phase) && NEWLINE !in s
    ensures Run(env, rx, s + [NEWLINE]) == LineDone(env, rx.(line := rx.line + s), rx.line + s)
  {
    RunAppend(env, rx, s, [NEWLINE]);
    RunText(env, rx, s);
    var r := rx.(line := rx.line + s);
    assert Run(env, r, [NEWLINE]) == Run(env, Step(env, r, NEWLINE), [NEWLINE][1..]);
  }

  lemma {:induction false} RunModel(env: Env, rx: Rx, s: string)
    requires rx.phase.Model? && s != "" && |rx.blob| + |s| <= rx.info.modelSize
    ensures Run(env, rx, s) ==
            if |rx.blob| + |s| == rx.info.modelSize then ModelDone(env, rx, rx.blob + s)
            else rx.(blob := rx.blob + s)
    decreases |s|
  {
    if |s| == 1 {
      assert s == [s[0]] && Run(env, Step(env, rx, s[0]), s[1..]) == Step(env, rx, s[0]);
      assert ModelDone(env, rx, rx.blob + s) == ModelDone(env, rx, rx.blob + [s[0]]);
    } else {
      var r := rx.(blob := rx.blob + [s[0]]);
      RunModel(env, r, s[1..]);
      assert rx.blob + s == r.blob + s[1..];
    }
  }

  lemma {:induction false} RunPayload(env: Env, rx: Rx, s: string)
    requires rx.phase.Payload? && s != ""
    requires rx.info.sizes.recv > 0 ==> rx.payload + |s| <= rx.info.sizes.recv
    ensures Run(env, rx, s) ==
            var r := TakePayload(rx, s); if PayloadComplete(r) then EnterChecksum(r) else r
    decreases |s|
  {
    if |s| == 1 {
      assert s == [s[0]] && Run(env, Step(env, rx, s[0]), s[1..]) == Step(env, rx, s[0]);
    } else {
      var r := TakePayload(rx, [s[0]]);
      RunPayload(env, r, s[1..]);
      assert rx.digested + s == rx.digested + [s[0]] + s[1..];
    }
  }

  lemma {:induction false} RunAuth(env: Env, rx: Rx, s: string)
    requires rx.phase.Authenticate? && rx.auth + |s| <= |PASSWORD| && s == PASSWORD[rx.auth..rx.auth + |s|]
    ensures Run(env, rx, s) == rx.(auth := rx.auth + |s|)
    decreases |s|
  {
    if s != "" {
      RunAuth(env, rx.(auth := rx.auth + 1), s[1..]);
    }
  }
}
