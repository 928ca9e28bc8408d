/** What a receiver accepts and refuses, on whatever bytes arrive: token, version, model, checksum
    line and footer, and what an end that counts as delivered must have read. */
module Refusals {
  import opened Options
  import opened CStrings
  import opened Decimals
  import opened Headers
  import opened Receiver
  import opened Sender
  import opened Script
  import opened Sending
  import opened Session
  import opened Agreement
  import Markov

  /** Two characters that differ at most in the case of a letter. */
  predicate SameLetter(a: char, b: char) {
    a == b || ('A' <= a <= 'Z' && b as int == a as int + 32) || ('A' <= b <= 'Z' && a as int == b as int + 32)
  }

  /** `t` begins with `word`, apart from case. */
  predicate Opens(word: string, t: string) {
    |word| <= |t| && forall i :: 0 <= i < |word| ==> SameLetter(word[i], t[i])
  }

  /** `w` is the second of the pieces that single spaces cut `t` into. */
  predicate SecondWord(t: string, w: string, a: string, b: string) {
    ' ' !in a && ' ' !in w && (b == "" || b[0] == ' ') && t == a + [' '] + w + b
  }

  /** A line whose second piece begins with the digest. */
  ghost predicate CarriesDigest(digest: string, t: string) {
    exists w, a, b :: SecondWord(t, w, a, b) && Opens(digest, w)
  }

  // ---- Lines ----

  lemma LetterCase(a: char, b: char)
    ensures Lower(a) == Lower(b) <==> SameLetter(a, b)
  {
  }

  lemma OpensExact(word: string, t: string)
    ensures CaseEqN(word, t, |word|) <==> Opens(word, t)
  {
    var u := Take(t, |word|);
    assert Take(word, |word|) == word;
    if |word| <= |t| {
      forall i | 0 <= i < |word| ensures u[i] == t[i] && (Lower(word[i]) == Lower(u[i]) <==> SameLetter(word[i], t[i])) {
        LetterCase(word[i], t[i]);
      }
    }
  }

  /** The first piece of a text, and what follows it. */
  lemma FirstPiece(t: string)
    ensures var i, f := Find(t, ' '), Fields(t, ' ');
            f[0] == t[..i] && (|f| == 1 <==> i == |t|) && (i < |t| ==> f[1..] == Fields(t[i + 1..], ' '))
  {
  }

  lemma SecondPiece(t: string, w: string)
    ensures |Split(t, ' ')| >= 2 && Split(t, ' ')[1] == w <==> exists a, b :: SecondWord(t, w, a, b)
  {
    hide Split, SecondWord;
    if |Split(t, ' ')| >= 2 && Split(t, ' ')[1] == w {
      var a, b := PieceParts(t);
    }
    if a, b :| SecondWord(t, w, a, b) {
      PieceBehind(t, w, a, b);
    }
  }

  lemma CutTwice(t: string, a: string, rest: string, w: string, b: string)
    requires t == a + [' '] + rest && rest == w + b && ' ' !in a && ' ' !in w && (b == "" || b[0] == ' ')
    ensures SecondWord(t, w, a, b)
  {
    assert a + [' '] + (w + b) == a + [' '] + w + b;
  }

  lemma Cut(t: string, i: nat)
    requires i <= |t|
    ensures t == t[..i] + t[i..]
    ensures i < |t| ==> t == t[..i] + [t[i]] + t[i + 1..]
  {
  }

  lemma Before(t: string, c: char)
    ensures c !in t[..Find(t, c)]
  {
    var i := Find(t, c);
    forall j | 0 <= j < i ensures t[..i][j] != c {
    }
  }

  lemma PieceParts(t: string) returns (a: string, b: string)
    requires |Split(t, ' ')| >= 2
    ensures SecondWord(t, Split(t, ' ')[1], a, b)
  {
    hide Fields, SecondWord, Find;
    FirstPiece(t);
    Before(t, ' ');
    var i := Find(t, ' ');
    Cut(t, i);
    var rest := t[i + 1..];
    FirstPiece(rest);
    Before(rest, ' ');
    var j := Find(rest, ' ');
    Cut(rest, j);
    a, b := t[..i], rest[j..];
    CutTwice(t, a, rest, rest[..j], b);
  }

  lemma PieceBehind(t: string, w: string, a: string, b: string)
    requires SecondWord(t, w, a, b)
    ensures |Split(t, ' ')| >= 2 && Split(t, ' ')[1] == w
  {
    var rest := w + b;
    assert t == a + [' '] + rest;
    FindUnique(a, ' ', rest);
    assert t[|a| + 1..] == rest;
    FirstPiece(rest);
    if b == "" {
      assert rest == w && Find(rest, ' ') == |w| && rest[..|w|] == w;
    } else {
      assert rest == w + [' '] + b[1..];
      FindUnique(w, ' ', b[1..]);
      assert rest[..|w|] == w;
    }
  }

  lemma MatchesExact(env: Env, digested: string, t: string)
    requires |env.md5(digested)| == DIGEST_LENGTH
    ensures ChecksumMatches(env, digested, t) <==> CarriesDigest(env.md5(digested), CString(t))
  {
    var digest, line := env.md5(digested), CString(t);
    var parts := Split(line, ' ');
    if ChecksumMatches(env, digested, t) {
      SecondPiece(line, parts[1]);
      OpensExact(digest, parts[1]);
    }
    if CarriesDigest(digest, line) {
      var w, a, b :| SecondWord(line, w, a, b) && Opens(digest, w);
      SecondPiece(line, w);
      OpensExact(digest, w);
    }
  }

  /** A checksum line, up to its first NUL, is accepted exactly when its second piece begins with the
      digest of the bytes counted, apart from case; every other line ends the stream. */
  lemma ChecksumExact(env: Env, rx: Rx, t: string)
    requires rx.phase.Checksum? && rx.line == "" && rx.info.sizes.recv > 0 && |env.md5(rx.digested)| == 32
    requires NEWLINE !in t
    ensures Run(env, rx, t + "\n") ==
            if CarriesDigest(env.md5(rx.digested), CString(t)) then rx.(phase := Footer, checksumSeen := true)
            else rx.(phase := Failed, error := BadChecksum, checksumSeen := true)
  {
    hide CarriesDigest, ChecksumMatches, CString;
    RunLine(env, rx, t);
    assert rx.line + t == t;
    MatchesExact(env, rx.digested, t);
  }

  /** A footer line is accepted exactly when it begins with FIN, apart from case. */
  lemma FooterExact(env: Env, rx: Rx, t: string)
    requires rx.phase.Footer? && rx.line == "" && NEWLINE !in t
    ensures Run(env, rx, t + "\n") ==
            if Opens("FIN", CString(t)) then rx.(phase := Success) else rx.(phase := Failed, error := BadFooter)
  {
    hide CString;
    RunLine(env, rx, t);
    assert rx.line + t == t;
    OpensExact("FIN", CString(t));
    assert CaseEqN(CString(t), "FIN", 3) <==> CaseEqN("FIN", CString(t), 3);
  }

  // ---- Whatever arrives behind the prelude ----

  /** A rest that begins with a footer line. */
  ghost predicate Finishes(x: string) {
    exists f: string, more: string :: Lined(x, f, more) && Opens("FIN", CString(f))
  }

  /** `t` is the first line of `x`. */
  ghost predicate Lined(x: string, t: string, more: string) {
    x == t + "\n" + more && NEWLINE !in t
  }

  lemma LineUnique(x: string, t: string, more: string)
    requires Lined(x, t, more)
    ensures Find(x, NEWLINE) == |t| < |x| && t == x[..|t|] && more == x[|t| + 1..]
  {
    FindUnique(t, NEWLINE, more);
    assert x == t + [NEWLINE] + more;
  }

  lemma FirstLine(x: string) returns (t: string, more: string)
    requires NEWLINE in x
    ensures Lined(x, t, more)
  {
    var i := Find(x, NEWLINE);
    t, more := x[..i], x[i + 1..];
    assert x == t + [NEWLINE] + more;
  }

  lemma LineEnds(env: Env, rx: Rx, x: string, t: string, more: string)
    requires Lined(x, t, more)
    ensures Run(env, rx, x) == Run(env, Run(env, rx, t + "\n"), more)
  {
    RunAppend(env, rx, t + "\n", more);
  }

  /** A reader that waits for the footer succeeds exactly when a footer line comes first. */
  lemma FinishExact(env: Env, rx: Rx, x: string)
    requires rx.phase.Footer? && rx.line == ""
    ensures var r := Run(env, rx, x);
            (r.phase.Success? <==> Finishes(x)) && (r.phase.Footer? <==> NEWLINE !in x) && r.digested == rx.digested &&
            r.payload == rx.payload && (r.phase.Failed? <==> NEWLINE in x && !Finishes(x)) && (r.phase.Failed? ==> r.error == BadFooter)
  {
    hide CString, Opens, Run;
    if NEWLINE in x {
      var t, more := FirstLine(x);
      LineEnds(env, rx, x, t, more);
      FooterExact(env, rx, t);
      RunStopped(env, Run(env, rx, t + "\n"), more);
      if f, m :| Lined(x, f, m) && Opens("FIN", CString(f)) {
        LineUnique(x, f, m);
        LineUnique(x, t, more);
      }
    } else {
      RunText(env, rx, x);
      if f, m :| Lined(x, f, m) && Opens("FIN", CString(f)) {
        LineUnique(x, f, m);
      }
    }
  }

  /** The first line of `x`, up to its first NUL, carries the digest. */
  ghost predicate Bears(digest: string, x: string, t: string, rest: string) {
    Lined(x, t, rest) && CarriesDigest(digest, CString(t))
  }

  /** A reader that waits for the checksum line. */
  lemma TailExact(env: Env, rx: Rx, x: string)
    requires rx.phase.Checksum? && rx.line == "" && rx.info.sizes.recv > 0 && |env.md5(rx.digested)| == 32
    ensures var r := Run(env, rx, x);
            (r.phase.Footer? || r.phase.Success? <==>
               exists t, rest :: Bears(env.md5(rx.digested), x, t, rest) && (NEWLINE in rest ==> Finishes(rest))) &&
            (r.phase.Success? <==>
               exists t, rest :: Bears(env.md5(rx.digested), x, t, rest) && Finishes(rest)) &&
            (r.phase.Footer? || r.phase.Success? ==> r.digested == rx.digested && r.payload == rx.payload)
  {
    hide CString, CarriesDigest, Finishes, Run;
    if NEWLINE in x {
      var t, rest := FirstLine(x);
      LineEnds(env, rx, x, t, rest);
      ChecksumExact(env, rx, t);
      LineUnique(x, t, rest);
      var s := Run(env, rx, t + "\n");
      assert s.phase.Footer? <==> Bears(env.md5(rx.digested), x, t, rest);
      if s.phase.Footer? { FinishExact(env, s, rest); } else { RunStopped(env, s, rest); }
      forall u, more | Lined(x, u, more) ensures u == t && more == rest {
        LineUnique(x, u, more);
      }
    } else {
      RunText(env, rx, x);
      assert forall u, more :: Lined(x, u, more) ==> NEWLINE in x;
    }
  }

  ghost predicate DigestLengths(env: Env) {
    forall d: string :: |env.md5(d)| == DIGEST_LENGTH
  }

  /** Behind `size` bytes comes a line that carries their digest, and then `rest`. */
  ghost predicate Digested(env: Env, size: nat, x: string, t: string, rest: string) {
    size <= |x| && Bears(env.md5(x[..size]), x[size..], t, rest)
  }

  /** A payload of requested size on whatever bytes arrive behind the prelude. The receiver reaches
      the footer exactly when the line behind the requested number of bytes carries the digest of
      these very bytes, and succeeds exactly when a footer line comes next. */
  lemma ReceiptExact(env: Env, b: Rx, x: string)
    requires Fresh(b) && b.info.sizes.recv > 0 && DigestLengths(env)
    ensures var r, n := Run(env, b, x), b.info.sizes.recv;
            (r.phase.Success? <==> exists t, rest :: Digested(env, n, x, t, rest) && Finishes(rest)) &&
            (r.phase.Footer? || r.phase.Success? <==>
               exists t, rest :: Digested(env, n, x, t, rest) && (NEWLINE in rest ==> Finishes(rest))) &&
            (r.phase.Footer? || r.phase.Success? ==> n <= |x| && r.digested == x[..n] && r.payload == n)
  {
    hide Finishes, Run, Bears;
    var n := b.info.sizes.recv;
    if |x| < n {
      if x != "" { RunPayload(env, b, x); } else { RunNothing(env, b); }
    } else {
      var body, tail := x[..n], x[n..];
      assert x == body + tail && b.digested + body == body;
      RunPayload(env, b, body);
      RunAppend(env, b, body, tail);
      var r := EnterChecksum(TakePayload(b, body));
      TailExact(env, r, tail);
      assert forall t, rest :: Digested(env, n, x, t, rest) <==> Bears(env.md5(r.digested), tail, t, rest);
    }
  }

  /** What must have arrived behind the prelude before an end of file: for a requested size the
      payload, its digest and a footer, for zero bytes a footer, otherwise nothing. */
  ghost predicate Intact(env: Env, z: Sizes, x: string) {
    if z.recv > 0 then exists t, rest :: Digested(env, z.recv, x, t, rest) && Finishes(rest)
    else z.recvZero ==> Finishes(x)
  }

  lemma {:induction false} RunUnsized(env: Env, rx: Rx, x: string)
    requires rx.phase.Payload? && rx.info.sizes.recv == 0
    ensures Run(env, rx, x) == rx.(payload := rx.payload + |x|)
  {
    if x != "" { RunPayload(env, rx, x); }
  }

  /** Whatever bytes arrive behind the prelude, an end of file after them is a success exactly when
      they are intact; otherwise it is an error. */
  lemma EndOfFileExact(env: Env, b: Rx, x: string)
    requires Fresh(b) && DigestLengths(env)
    ensures var r := Eof(Run(env, EnterPayload(b), x));
            (r.phase.Success? <==> Intact(env, b.info.sizes, x)) && (r.phase.Success? || (r.phase.Failed? && r.error != NoError))
  {
    hide Digested, Finishes, Run;
    var z := b.info.sizes;
    if z.recv > 0 {
      assert EnterPayload(b) == b;
      ReceiptExact(env, b, x);
      ErrorsStop(env, b, x);
    } else if z.recvZero {
      FinishExact(env, EnterPayload(b), x);
    } else {
      RunUnsized(env, b, x);
    }
  }

  /** A receiver that has not failed has no error, and behind the prelude it is never idle. */
  lemma {:induction false} ErrorsStop(env: Env, rx: Rx, x: string)
    requires !Early(rx.phase) && (rx.phase.Failed? <==> rx.error != NoError)
    ensures var r := Run(env, rx, x); r.info == rx.info && !Early(r.phase) && (r.phase.Failed? <==> r.error != NoError)
    decreases |x|
  {
    hide ChecksumMatches, CaseEqN, CString;
    if x != "" {
      ErrorsStop(env, Step(env, rx, x[0]), x[1..]);
    }
  }

  /** An end of file before the payload is an error, whatever has arrived. */
  lemma EndOfFileEarly(env: Env, rx: Rx, x: string)
    requires var r := Run(env, rx, x); r.phase.Authenticate? || r.phase.Header? || r.phase.Model?
    ensures var r := Eof(Run(env, rx, x)); r.phase.Failed? && r.error == ReadEof
  {
    hide Run;
  }

  // ---- Between two ends ----

  /** Over every run: an end that waits for the footer or has it, of a payload of requested size, has
      read from its peer the command or response, the payload, and a line that carries the digest of
      exactly these bytes. */
  lemma ReadIsDigested(k: Setup, acts: seq<Act>, c: bool)
    requires SetupOk(k) && SizesFor(k, c).recv > 0
    requires Receipt(Party(After(k, acts), c))
    ensures var y, n, lead := After(k, acts), SizesFor(k, c).recv, |Lead(k, !c)|;
            var rx, got := Party(y, c).rx, InPipe(y, c).got;
            Lead(k, !c) <= got && lead + n <= |got| && rx.payload == n && rx.digested == got[lead..lead + n] &&
            (exists t, rest :: Digested(k.env, n, got[lead..], t, rest)) &&
            (rx.phase.Success? <==> exists t, rest :: Digested(k.env, n, got[lead..], t, rest) && Finishes(rest))
  {
    hide Inv, SetupOk, Lead, Run, Digested, Finishes;
    var up, down := RunInv(k, acts);
    DigestedRead(k, After(k, acts), c, up, down);
  }

  lemma DigestedRead(k: Setup, y: Sys, c: bool, up: string, down: string)
    requires SetupOk(k) && Inv(k, y, up, down) && SizesFor(k, c).recv > 0 && Receipt(Party(y, c))
    ensures var n, lead := SizesFor(k, c).recv, |Lead(k, !c)|;
            var rx, got := Party(y, c).rx, InPipe(y, c).got;
            Lead(k, !c) <= got && lead + n <= |got| && rx.payload == n && rx.digested == got[lead..lead + n] &&
            (exists t, rest :: Digested(k.env, n, got[lead..], t, rest)) &&
            (rx.phase.Success? <==> exists t, rest :: Digested(k.env, n, got[lead..], t, rest) && Finishes(rest))
  {
    hide Sends, Lead, Run, Digested, Finishes, Text, Base, Begins;
    var lead, got := Lead(k, !c), InPipe(y, c).got;
    SuccessIsNotCommand(k, y, c, up, down);
    Reading(k, y, c, up, down);
    GotLead(k, y, c, up, down);
    var x := got[|lead|..];
    assert got == lead + x;
    RunAppend(k.env, Begins(k, c), lead, x);
    BehindLead(k, c);
    ReceiptExact(k.env, Base(k, c), x);
  }

  /** Behind the peer's command or response the reader is ready for the payload. */
  lemma BehindLead(k: Setup, c: bool)
    requires SetupOk(k) && SizesFor(k, c).recv > 0
    ensures Run(k.env, Begins(k, c), Lead(k, !c)) == Base(k, c)
    ensures Fresh(Base(k, c)) && Base(k, c).info.sizes == SizesFor(k, c)
    ensures DigestLengths(k.env)
  {
    hide CommandText, ResponseText, Run, CommandBase, ResponseBase, Waiting;
    BaseSizes(k, c);
    if c { ResponseTrack(k, Lead(k, false)); } else { CommandTrack(k, Lead(k, true)); }
  }

  lemma GotLead(k: Setup, y: Sys, c: bool, up: string, down: string)
    requires SetupOk(k) && Inv(k, y, up, down) && !Party(y, c).tx.state.Command? && |Lead(k, !c)| <= |InPipe(y, c).got|
    ensures Lead(k, !c) <= InPipe(y, c).got
  {
    hide Inv, Lead, Run, Rest;
    var r := StandsNow(k, y, c, up, down);
    var z := SizesFor(k, !c);
    PrefixCases(InPipe(y, c).got, Lead(k, !c), Rest(k.env, z.send, z.sendZero, PeerBody(k, c, up, down)));
  }

  // ---- Token, version, model and response ----

  /** The token is compared byte by byte, and the byte behind it is taken whatever it is. */
  lemma {:induction false} TokenExact(env: Env, rx: Rx, x: string)
    requires rx.phase.Authenticate? && rx.auth <= 20
    ensures var r, rest := Run(env, rx, x), PASSWORD[rx.auth..];
            if x <= rest then r == rx.(auth := rx.auth + |x|)
            else if rest <= x then r == Run(env, rx.(auth := 20, phase := Header, line := ""), x[|rest| + 1..])
            else r.phase.Failed? && r.error == BadAuth
    decreases |x|
  {
    hide HeaderDone, PASSWORD;
    if x != "" && rx.auth < 20 {
      TokenRest(rx.auth);
      var rest := PASSWORD[rx.auth..];
      if x[0] == rest[0] {
        TokenExact(env, rx.(auth := rx.auth + 1), x[1..]);
        HeadsAgree(x, rest);
        HeadsAgree(rest, x);
      } else {
        RunStopped(env, Step(env, rx, x[0]), x[1..]);
      }
    } else {
      TokenRest(rx.auth);
    }
  }

  lemma TokenRest(n: nat)
    requires n <= 20
    ensures |PASSWORD| == 20
    ensures n < 20 ==> PASSWORD[n..] != "" && PASSWORD[n..][0] == PASSWORD[n] && PASSWORD[n..][1..] == PASSWORD[n + 1..]
    ensures n == 20 ==> PASSWORD[n..] == ""
  {
  }

  lemma HeadsAgree(a: string, b: string)
    requires a != "" && b != "" && a[0] == b[0]
    ensures a <= b <==> a[1..] <= b[1..]
  {
    assert a == [a[0]] + a[1..] && b == [b[0]] + b[1..];
  }

  /** A version is accepted exactly when the number before its first dot is 2 in 32 bits; without a
      dot it is as if it had not been given. */
  lemma VersionExact(s: Scan, commander: bool, n: nat, rest: string)
    requires n < UINT64_LIMIT / 2
    ensures Apply(s, commander, Protocol, Print(n) + "." + rest) ==
            if n % UINT32_LIMIT == 2 then s.(seen := s.seen + {Protocol}) else s.(error := HeaderVersion)
    ensures '.' !in rest ==> Apply(s, commander, Protocol, rest) == s
  {
    var text := Print(n) + "." + rest;
    assert '.' !in Print(n) by {
      forall i | 0 <= i < |Print(n)| ensures Print(n)[i] != '.' {
        assert IsDigit(Print(n)[i]);
      }
    }
    FindUnique(Print(n), '.', rest);
    assert text == Print(n) + ['.'] + rest && text[..|Print(n)|] == Print(n);
    PrintReads(n);
  }

  /** A model size is accepted exactly between one byte and ten mebibytes. */
  lemma ModelSizeExact(s: Scan, commander: bool, n: nat)
    requires n < UINT64_LIMIT / 2
    ensures Apply(s, commander, ModelSize, Print(n)) ==
            if 1 <= n <= 10485760 then s.(seen := s.seen + {ModelSize}, info := s.info.(modelSize := n))
            else s.(error := HeaderModelSize)
  {
    PrintReads(n);
  }

  /** A model mode is accepted exactly when it begins with "path" or "graphml" cut to four letters,
      apart from case. */
  lemma ModelModeExact(s: Scan, commander: bool, value: string)
    ensures Apply(s, commander, ModelMode, value) ==
            var t := s.(seen := s.seen + {ModelMode});
            if Opens("path", value) then t.(pathMode := true)
            else if Opens("grap", value) then t.(pathMode := false)
            else t.(error := HeaderModelMode)
  {
    OpensExact("path", value);
    OpensExact("grap", value);
    assert CaseEqN(value, "path", 4) <==> CaseEqN("path", value, 4);
    assert CaseEqN(value, "graphml", 4) <==> CaseEqN("grap", value, 4) by {
      assert Take("graphml", 4) == "grap";
    }
  }

  /** A response that carries an error code ends the commander's stream, in both directions. */
  lemma ErrorResponseRefused(k: Setup, e: StreamError)
    requires Clean(k.server.host) && e != NoError
    ensures var r := Run(k.env, Listening(k), ResponseText(k.server.host, e));
            r.phase.Failed? && r.error == BadHeader && r.cue == Quit
  {
    hide Run, ResponsePairs, Line, HeaderDone;
    var line := Line(ResponsePairs(k.server.host, e));
    ErrorVerdict(k, e);
    HeaderTrack(k.env, Listening(k), line, TOKEN + line + "\n");
  }

  lemma ErrorVerdict(k: Setup, e: StreamError)
    requires Clean(k.server.host) && e != NoError
    ensures NEWLINE !in Line(ResponsePairs(k.server.host, e))
    ensures var h := Listening(k).(auth := |PASSWORD|, phase := Header, line := Line(ResponsePairs(k.server.host, e)));
            var r := HeaderDone(k.env, h, h.line);
            r.phase.Failed? && r.error == BadHeader && r.cue == Quit
  {
    hide ResponsePairs, Headers.Conclude;
    ResponseAccepted(k.env, Listening(k).info, k.server.host, e);
  }

  /** A model that does not load ends the stream, and the server still responds. */
  lemma ModelExact(env: Env, rx: Rx, text: string)
    requires rx.phase.Model? && rx.blob == "" && text != "" && |text| == rx.info.modelSize
    ensures var r := Run(env, rx, text);
            r.cue == Respond && r.loaded == env.fromText(text, rx.info.modelSeed) &&
            (r.phase.Failed? <==> r.loaded.None?) && (r.phase.Failed? ==> r.error == BadModel)
  {
    RunModel(env, rx, text);
    assert rx.blob + text == text;
  }

  /** A command that names its model is accepted exactly when the model loads: from that very path
      with the announced seed, or the built-in text when the path is the built-in name. */
  lemma PathExact(k: Setup)
    requires OfferOk(k.offer) && k.offer.path.Some?
    ensures var r, path, seed := Run(k.env, Server(k).rx, CommandText(k.offer)), k.offer.path.value, k.offer.modelSeed;
            var builtIn := |path| == |k.env.internalName| && Opens(path, k.env.internalName);
            r.loaded == (if builtIn then k.env.fromText(k.env.internalText, seed) else k.env.fromPath(path, seed)) &&
            r.cue == Respond && (r.phase.Failed? <==> r.loaded.None?) && (r.phase.Failed? ==> r.error == HeaderModelPath)
  {
    hide Run, CommandPairs, Line, HeaderDone;
    var line := Line(CommandPairs(k.offer));
    CommandRoundTrip(Server(k).rx.info, k.offer);
    PathVerdict(k, Server(k).rx.(auth := |PASSWORD|, phase := Header, line := line));
    assert CommandText(k.offer) == TOKEN + line + "\n";
    HeaderTrack(k.env, Server(k).rx, line, TOKEN + line + "\n");
  }

  lemma PathVerdict(k: Setup, h: Rx)
    requires OfferOk(k.offer) && k.offer.path.Some?
    requires h == Server(k).rx.(auth := |PASSWORD|, phase := Header, line := Line(CommandPairs(k.offer)))
    ensures var r, path, seed := HeaderDone(k.env, h, h.line), k.offer.path.value, k.offer.modelSeed;
            var builtIn := |path| == |k.env.internalName| && Opens(path, k.env.internalName);
            r.loaded == (if builtIn then k.env.fromText(k.env.internalText, seed) else k.env.fromPath(path, seed)) &&
            r.cue == Respond && (r.phase.Failed? <==> r.loaded.None?) && (r.phase.Failed? ==> r.error == HeaderModelPath)
  {
    hide CommandPairs, Opens, CaseEq, Line;
    var path, name := k.offer.path.value, k.env.internalName;
    CommandRoundTrip(Server(k).rx.info, k.offer);
    SameName(path, name);
    var s := CommandScan(h.info, k.offer);
    assert s.path == Some(path) && s.info.modelSeed == k.offer.modelSeed && s.pathMode && s.error == NoError;
    if LoadPath(k.env, s).Some? { CommandAccepted(k.env, h.info, k.offer); }
  }

  lemma SameName(a: string, b: string)
    ensures CaseEq(a, b) <==> |a| == |b| && Opens(a, b)
  {
    if |a| == |b| {
      assert Take(a, |a|) == a && Take(b, |a|) == b;
      OpensExact(a, b);
    }
  }

  /** A server that refuses answers with the code of its error, in as many writes as it takes, and
      sends nothing else. */
  lemma RefusalAnswered(env: Env, e: End, r: Replies, d: Draw)
    requires e.tx.state.Response? && e.rx.error != NoError && Lossless(r)
    ensures var f := OnWritable(env, e, r, d);
            f.wrote + f.end.tx.out == (if e.tx.out == "" then ResponseText(e.me.host, e.rx.error) else e.tx.out) &&
            f.end.tx.state == (if f.end.tx.out == "" then Sent else Response) && f.end.rx == e.rx && f.end.tx.payload == e.tx.payload
  {
    hide FlushOut, StageResponse, ResponseText, StagePayload, FlushPayload, Push;
    var e0 := WithTx(e, e.tx.(barrier := 0));
    var f := StageResponse(e0, r.response);
    ErrorWritten(e0, r.response);
    assert StagePayload(f.end, r.leftover, r.batch, d) == Still(f.end) by { NoPayload(f.end, r.leftover, r.batch, d); }
    assert "" + (f.wrote + "") + ("" + "" + "") == f.wrote;
  }

  lemma NoPayload(e: End, a: Answer, b: Answer, d: Draw)
    requires !e.tx.state.SendPayload?
    ensures StagePayload(e, a, b, d) == Still(e)
  {
  }

  lemma ErrorWritten(e: End, a: Answer)
    requires e.tx.state.Response? && e.rx.error != NoError && (a.Accepted? || a.Busy?)
    ensures var f := StageResponse(e, a);
            f.wrote + f.end.tx.out == (if e.tx.out == "" then ResponseText(e.me.host, e.rx.error) else e.tx.out) &&
            f.end.tx.state == (if f.end.tx.out == "" then Sent else Response) && f.end.rx == e.rx && f.end.tx.payload == e.tx.payload
  {
    hide ResponseText;
    ResponseNotEmpty(e.me.host, e.rx.error);
  }
}
