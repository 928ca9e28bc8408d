/** What one end of a stream writes in full, and where any prefix of it leaves the reader: the
    alignment of the reader's phases with the writer's segments. */
module Script {
  import opened Options
  import opened CStrings
  import opened Headers
  import opened Receiver
  import opened Sender
  import Markov

  /** A commander's offer, a server, what both see of the outside, and the offered model. */
  datatype Setup = Setup(env: Env, offer: Offer, server: Offer, model: Markov.Model)

  function Commander(k: Setup): End {
    NewEnd(k.offer, Some(k.model), k.offer.sizes)
  }

  function Server(k: Setup): End {
    NewEnd(k.server, None, Sizes(0, false, 0, false))
  }

  ghost predicate DigestsOk(env: Env) {
    forall d: string :: |env.md5(d)| == DIGEST_LENGTH && Clean(env.md5(d))
  }

  function InfoOfCommand(k: Setup): Info {
    CommandScan(Server(k).rx.info, k.offer).info
  }

  /** The offer can be written as a header, and the server loads the offered model from it. */
  ghost predicate SetupOk(k: Setup) {
    OfferOk(k.offer) && SizesOk(k.offer.sizes) && Clean(k.server.host) && DigestsOk(k.env) && Markov.Sound(k.model) &&
    if k.offer.path.Some? then LoadPath(k.env, CommandScan(Server(k).rx.info, k.offer)) == Some(k.model)
    else k.env.fromText(k.offer.text, k.offer.modelSeed) == Some(k.model)
  }

  lemma PrefixCases(g: string, a: string, b: string)
    requires g <= a + b
    ensures |g| <= |a| ==> g <= a
    ensures |g| >= |a| ==> g == a + g[|a|..] && g[|a|..] <= b
  {
    assert g == (a + b)[..|g|];
    if |g| >= |a| {
      assert g[|a|..] == b[..|g| - |a|];
    } else {
      assert g == a[..|g|];
    }
  }

  // ---- Before the payload ----

  /** Not yet through the prelude, and nothing settled so far. */
  ghost predicate Waiting(start: Rx, rx: Rx) {
    (rx.phase.Authenticate? || rx.phase.Header? || rx.phase.Model?) && rx.error == NoError && rx.cue == start.cue &&
    rx.loaded == start.loaded && rx.commander == start.commander && rx.payload == 0 &&
    rx.checksumSeen == start.checksumSeen && (rx.commander ==> rx.info == start.info)
  }

  /** Ready for the payload. */
  predicate Fresh(rx: Rx) {
    rx.phase.Payload? && rx.error == NoError && rx.payload == 0 && rx.digested == "" && rx.line == "" && !rx.checksumSeen
  }

  const TOKEN: string := PASSWORD + " "

  lemma TokenEnd(env: Env, rx: Rx)
    requires rx.phase.Authenticate? && rx.auth == |PASSWORD|
    ensures Run(env, rx, " ") == rx.(phase := Header, line := "")
  {
    assert Run(env, rx, " ") == Run(env, Step(env, rx, ' '), " "[1..]);
  }

  lemma TokenTrack(env: Env, rx: Rx, g: string)
    requires rx.phase.Authenticate? && rx.auth == 0 && g <= TOKEN
    ensures Run(env, rx, g) ==
            if g == TOKEN then rx.(auth := |PASSWORD|, phase := Header, line := "") else rx.(auth := |g|)
  {
    hide Run;
    PrefixCases(g, PASSWORD, " ");
    if |g| > |PASSWORD| {
      RunAppend(env, rx, PASSWORD, " ");
      RunAuth(env, rx, PASSWORD);
      TokenEnd(env, rx.(auth := |PASSWORD|));
    } else {
      RunAuth(env, rx, g);
    }
  }

  /** The token and the header line. */
  lemma HeaderTrack(env: Env, rx: Rx, line: string, g: string)
    requires rx.phase.Authenticate? && rx.auth == 0 && rx.line == "" && NEWLINE !in line && g <= TOKEN + line + "\n"
    ensures var h := rx.(auth := |PASSWORD|, phase := Header, line := line);
            if g == TOKEN + line + "\n" then Run(env, rx, g) == HeaderDone(env, h, line)
            else exists n, p, l :: Run(env, rx, g) == rx.(auth := n, phase := p, line := l) && (p.Authenticate? || p.Header?)
  {
    hide HeaderDone;
    var full := TOKEN + line + "\n";
    assert full == TOKEN + (line + "\n");
    PrefixCases(g, TOKEN, line + "\n");
    TokenTrack(env, rx, TOKEN);
    if |g| <= |TOKEN| {
      TokenTrack(env, rx, g);
      assert Run(env, rx, g) == rx.(auth := Run(env, rx, g).auth, phase := Run(env, rx, g).phase, line := "");
    } else {
      var t := g[|TOKEN|..];
      var h := rx.(auth := |PASSWORD|, phase := Header);
      RunAppend(env, rx, TOKEN, t);
      PrefixCases(t, line, "\n");
      if t == line + "\n" {
        RunLine(env, h, line);
        assert h.line + line == line;
      } else {
        assert NEWLINE !in t;
        RunText(env, h, t);
        assert h.line + t == t;
        assert Run(env, rx, g) == rx.(auth := |PASSWORD|, phase := Header, line := t);
      }
    }
  }

  /** The state behind a whole command. */
  function CommandBase(k: Setup): Rx {
    Server(k).rx.(auth := |PASSWORD|, phase := Payload, cue := Respond, info := InfoOfCommand(k), loaded := Some(k.model))
  }

  lemma HeaderOfCommand(k: Setup)
    requires SetupOk(k)
    ensures var h := Server(k).rx.(auth := |PASSWORD|, phase := Header, line := Line(CommandPairs(k.offer)));
            HeaderDone(k.env, h, h.line) ==
            if k.offer.path.Some? then EnterPayload(CommandBase(k))
            else Server(k).rx.(auth := |PASSWORD|, phase := Model, info := InfoOfCommand(k))
  {
    hide CommandScan, EnterPayload, CommandPairs, LoadPath, Line, Conclude;
    var rx := Server(k).rx;
    CommandRoundTrip(rx.info, k.offer);
    CommandAccepted(k.env, rx.info, k.offer);
    EnterTwice(rx.(auth := |PASSWORD|, phase := Header, cue := Respond, info := InfoOfCommand(k), loaded := Some(k.model)));
  }

  lemma ModelOfCommand(k: Setup, rx: Rx)
    requires SetupOk(k) && k.offer.path.None?
    requires rx == Server(k).rx.(auth := |PASSWORD|, phase := Model, info := InfoOfCommand(k))
    ensures rx.info.modelSize == |k.offer.text|
    ensures ModelDone(k.env, rx, k.offer.text) == EnterPayload(CommandBase(k))
  {
    hide EnterPayload;
    EnterTwice(rx.(loaded := Some(k.model), cue := Respond));
  }

  lemma CommandLine(k: Setup)
    requires SetupOk(k)
    ensures NEWLINE !in Line(CommandPairs(k.offer))
    ensures CommandText(k.offer) == TOKEN + Line(CommandPairs(k.offer)) + "\n" + Blob(k.offer)
  {
    hide CommandScan, CommandPairs, Line;
    CommandRoundTrip(Server(k).rx.info, k.offer);
  }

  /** The server on any beginning of a command: still waiting, or ready once it is whole. */
  lemma CommandTrack(k: Setup, g: string)
    requires SetupOk(k) && g <= CommandText(k.offer)
    ensures if g == CommandText(k.offer) then Run(k.env, Server(k).rx, g) == EnterPayload(CommandBase(k))
            else Waiting(Server(k).rx, Run(k.env, Server(k).rx, g))
  {
    hide CommandText, EnterPayload, CommandPairs, Line, HeaderDone, ModelDone, CommandScan;
    var rx, line := Server(k).rx, Line(CommandPairs(k.offer));
    var header := TOKEN + line + "\n";
    CommandLine(k);
    HeaderOfCommand(k);
    PrefixCases(g, header, Blob(k.offer));
    HeaderTrack(k.env, rx, line, header);
    if |g| < |header| {
      HeaderTrack(k.env, rx, line, g);
    } else if |g| > |header| {
      var b := g[|header|..];
      var r := rx.(auth := |PASSWORD|, phase := Model, info := InfoOfCommand(k));
      ModelOfCommand(k, r);
      RunAppend(k.env, rx, header, b);
      RunModel(k.env, r, b);
      assert b <= k.offer.text && r.blob + b == b;
    } else {
      assert g == header && (k.offer.path.Some? ==> header + "" == header);
    }
  }

  /** The commander once its command is out. */
  function Listening(k: Setup): Rx {
    Commander(k).rx.(phase := Authenticate)
  }

  function ResponseBase(k: Setup): Rx {
    Listening(k).(auth := |PASSWORD|, phase := Payload, info := Listening(k).info.(peerHost := Some(k.server.host)))
  }

  lemma HeaderOfResponse(k: Setup)
    requires SetupOk(k)
    ensures var h := Listening(k).(auth := |PASSWORD|, phase := Header, line := Line(ResponsePairs(k.server.host, NoError)));
            HeaderDone(k.env, h, h.line) == EnterPayload(ResponseBase(k))
    ensures NEWLINE !in Line(ResponsePairs(k.server.host, NoError))
  {
    hide EnterPayload, ResponsePairs, Conclude;
    EnterTwice(ResponseBase(k).(phase := Header));
    ResponseAccepted(k.env, Listening(k).info, k.server.host, NoError);
  }

  lemma ResponseTrack(k: Setup, g: string)
    requires SetupOk(k) && g <= ResponseText(k.server.host, NoError)
    ensures if g == ResponseText(k.server.host, NoError) then Run(k.env, Listening(k), g) == EnterPayload(ResponseBase(k))
            else Waiting(Listening(k), Run(k.env, Listening(k), g))
  {
    hide EnterPayload, ResponsePairs, Line, HeaderDone;
    HeaderOfResponse(k);
    var line := Line(ResponsePairs(k.server.host, NoError));
    assert ResponseText(k.server.host, NoError) == TOKEN + line + "\n";
    HeaderTrack(k.env, Listening(k), line, g);
  }

  // ---- Payload, checksum, footer ----

  predicate Known(size: nat, zero: bool) {
    size > 0 || zero
  }

  function Mark(env: Env, size: nat, body: string): string {
    if size > 0 then ChecksumText(env, body) else ""
  }

  function Fin(size: nat, zero: bool): string {
    if Known(size, zero) then FOOTER else ""
  }

  /** What follows the prelude. */
  function Rest(env: Env, size: nat, zero: bool, body: string): string {
    body + (Mark(env, size, body) + Fin(size, zero))
  }

  /** A payload that the requested size allows. */
  predicate BodyOk(size: nat, zero: bool, body: string) {
    (size > 0 ==> |body| == size) && (zero ==> size == 0 && body == "")
  }

  function PhaseAt(env: Env, size: nat, zero: bool, body: string, n: nat): Phase {
    var marked := |body| + |Mark(env, size, body)|;
    if n < |body| || !Known(size, zero) then Payload
    else if n < marked then Checksum
    else if n < marked + |FOOTER| then Footer
    else Success
  }

  /** Where n bytes behind the prelude leave the reader. */
  predicate Placed(env: Env, b: Rx, body: string, n: nat, rx: Rx) {
    var z := b.info.sizes;
    rx.phase == PhaseAt(env, z.recv, z.recvZero, body, n) &&
    rx.payload == (if n < |body| then n else |body|) &&
    (z.recv > 0 && n >= |body| ==> rx.digested == body) &&
    (rx.checksumSeen <==> z.recv > 0 && n >= |body| + |Mark(env, z.recv, body)|)
  }

  /** Only reading fields differ. */
  ghost predicate SameStanding(b: Rx, rx: Rx) {
    rx.error == b.error && rx.cue == b.cue && rx.info == b.info && rx.loaded == b.loaded && rx.commander == b.commander
  }

  lemma FooterTrack(env: Env, rx: Rx, g: string)
    requires rx.phase.Footer? && rx.line == "" && g <= FOOTER
    ensures Run(env, rx, g) == if g == FOOTER then rx.(phase := Success) else rx.(line := g)
  {
    PrefixCases(g, "FIN", "\n");
    if g == FOOTER {
      RunLine(env, rx, "FIN");
      assert rx.line + "FIN" == "FIN" && FOOTER == "FIN" + [NEWLINE];
      assert CString("FIN") == "FIN";
    } else {
      RunText(env, rx, g);
      assert rx.line + g == g;
    }
  }

  /** The checksum line of the very payload is accepted. */
  lemma OwnChecksumMatches(env: Env, body: string)
    requires DigestsOk(env)
    ensures NEWLINE !in "MD5 " + env.md5(body) && ChecksumMatches(env, body, "MD5 " + env.md5(body))
  {
    var d := env.md5(body);
    var line := "MD5 " + d;
    assert CString(line) == line;
    assert Join(["MD5", d], ' ') == "MD5" + [' '] + d == line;
    SplitJoin(["MD5", d], ' ');
  }

  lemma ChecksumTrack(env: Env, rx: Rx, g: string)
    requires DigestsOk(env) && rx.phase.Checksum? && rx.line == "" && rx.info.sizes.recv > 0
    requires g <= ChecksumText(env, rx.digested)
    ensures Run(env, rx, g) ==
            if g == ChecksumText(env, rx.digested) then rx.(phase := Footer, checksumSeen := true) else rx.(line := g)
  {
    hide ChecksumMatches;
    var line := "MD5 " + env.md5(rx.digested);
    OwnChecksumMatches(env, rx.digested);
    PrefixCases(g, line, "\n");
    if g == line + "\n" {
      RunLine(env, rx, line);
      assert rx.line + line == line;
    } else {
      RunText(env, rx, g);
      assert rx.line + g == g;
    }
  }

  /** A reader with all payload bytes, on any beginning of the checksum line and footer. */
  lemma TailTrack(env: Env, rx: Rx, g: string)
    requires DigestsOk(env) && rx.phase.Checksum? && rx.line == "" && rx.info.sizes.recv > 0 && !rx.checksumSeen
    requires g <= ChecksumText(env, rx.digested) + FOOTER
    ensures var r, m := Run(env, rx, g), |ChecksumText(env, rx.digested)|;
            SameStanding(rx, r) && r.payload == rx.payload && r.digested == rx.digested && (r.checksumSeen <==> |g| >= m) &&
            r.phase == if |g| < m then Checksum else if |g| < m + |FOOTER| then Footer else Success
  {
    hide ChecksumText;
    var mark := ChecksumText(env, rx.digested);
    PrefixCases(g, mark, FOOTER);
    if |g| <= |mark| {
      ChecksumTrack(env, rx, g);
    } else {
      ChecksumTrack(env, rx, mark);
      RunAppend(env, rx, mark, g[|mark|..]);
      FooterTrack(env, rx.(phase := Footer, checksumSeen := true), g[|mark|..]);
    }
  }

  lemma PayloadTrack(env: Env, b: Rx, body: string, x: string)
    requires DigestsOk(env) && Fresh(b) && b.info.sizes.recv > 0 && |body| == b.info.sizes.recv
    requires x <= Rest(env, b.info.sizes.recv, b.info.sizes.recvZero, body)
    ensures SameStanding(b, Run(env, b, x)) && Placed(env, b, body, |x|, Run(env, b, x))
  {
    hide ChecksumText;
    PrefixCases(x, body, ChecksumText(env, body) + FOOTER);
    assert b.digested + body == body;
    if |x| < |body| {
      if x != "" { RunPayload(env, b, x); }
    } else {
      RunPayload(env, b, body);
      RunAppend(env, b, body, x[|body|..]);
      TailTrack(env, EnterChecksum(TakePayload(b, body)), x[|body|..]);
    }
  }

  /** The reader behind the prelude, on any beginning of what follows it. */
  lemma BodyTrack(env: Env, b: Rx, body: string, x: string)
    requires DigestsOk(env) && Fresh(b) && BodyOk(b.info.sizes.recv, b.info.sizes.recvZero, body)
    requires x <= Rest(env, b.info.sizes.recv, b.info.sizes.recvZero, body)
    ensures SameStanding(b, Run(env, EnterPayload(b), x)) && Placed(env, b, body, |x|, Run(env, EnterPayload(b), x))
  {
    var z := b.info.sizes;
    if z.recv > 0 {
      assert EnterPayload(b) == b;
      PayloadTrack(env, b, body, x);
    } else if z.recvZero {
      assert x <= FOOTER;
      FooterTrack(env, EnterPayload(b), x);
    } else {
      assert x <= body;
      if x != "" { RunPayload(env, b, x); }
    }
  }
}
