/** The invariant of the sending half: what has been written and what is buffered, together, is
    always the beginning of one script; and it holds through every writable event. */
module Sending {
  import opened Options
  import opened CStrings
  import opened Headers
  import opened Receiver
  import opened Sender
  import opened Script
  import opened Packets
  import Markov

  /** Everything expected from the peer, its footer excepted, has come. */
  predicate Receipt(e: End) {
    e.rx.phase.Footer? || e.rx.phase.Success?
  }

  ghost predicate Nothing(t: Tx, body: string) {
    body == "" && t.payload == 0 && t.digested == "" && t.expectSend == 0 && t.expectRecv == 0
  }

  /** The payload so far: what the checksum covers, at most what was requested, or what the model
      asked to send. */
  ghost predicate Paid(z: Sizes, t: Tx, body: string) {
    (z.send > 0 ==> body == t.digested && |body| <= z.send) && (z.sendZero ==> body == "") &&
    (!Known(z.send, z.sendZero) ==> |body| == t.expectSend)
  }

  ghost predicate Finished(z: Sizes, t: Tx, body: string) {
    Paid(z, t, body) && t.payload == |body| && (z.send > 0 ==> |body| == z.send) &&
    (!Known(z.send, z.sendZero) ==> t.walk.Some? && t.walk.value.found)
  }

  /** The written and the buffered bytes of each state; `lead` is the command or the response. */
  ghost predicate SendForm(env: Env, e: End, lead: string, sent: string, body: string) {
    var t, z := e.tx, e.rx.info.sizes;
    var all, marked := sent + t.out, lead + body + Mark(env, z.send, body);
    match t.state
    case Unstarted => all == "" && Nothing(t, body) && !e.rx.commander
    case Command => (if t.out == "" then sent == "" else all == lead) && Nothing(t, body) && e.rx.commander
    case Response => (if t.out == "" then sent == "" else all == lead) && Nothing(t, body) && !e.rx.commander
    case SendPayload => all == lead + body && t.payload + |t.out| == |body| && Paid(z, t, body)
    case SendChecksum =>
      (if t.out == "" then sent == lead + body else all == marked && |t.out| <= |Mark(env, z.send, body)|) &&
      Finished(z, t, body)
    case SendFooter =>
      (if t.out == "" then sent == marked else all == marked + FOOTER && |t.out| <= |FOOTER| && Known(z.send, z.sendZero) && Receipt(e)) &&
      Finished(z, t, body)
    case Flush => Written(env, e, lead, sent, body)
    case Sent => Written(env, e, lead, sent, body)
    case Broken => false
  }

  ghost predicate Written(env: Env, e: End, lead: string, sent: string, body: string) {
    var t, z := e.tx, e.rx.info.sizes;
    t.out == "" && sent == lead + Rest(env, z.send, z.sendZero, body) && (Known(z.send, z.sendZero) ==> Receipt(e)) &&
    Finished(z, t, body)
  }

  /** A started sender has its model and a position in it. */
  ghost predicate Ready(m: Markov.Model, e: End) {
    e.rx.error == NoError &&
    (!e.tx.state.Unstarted? ==>
       e.rx.loaded == Some(m) && e.tx.walk.Some? && (e.rx.info.sizes.sendZero ==> e.rx.info.sizes.send == 0))
  }

  /** The expected bytes count the first n observations of the walk. */
  ghost predicate WalkedTo(m: Markov.Model, e: End, n: nat) {
    var sized, c := e.rx.info.sizes.send > 0, e.rx.commander;
    var s := Trace(m, sized, Markov.Begin(m), n);
    e.tx.walk == Some(After(m, sized, Markov.Begin(m), n)) &&
    e.tx.expectSend == PACKET * Count(s, Own(c)) && e.tx.expectRecv == PACKET * Count(s, Other(c))
  }

  ghost predicate Walked(m: Markov.Model, e: End) {
    if e.tx.state.Unstarted? then e.tx.walk.None? else exists n: nat :: WalkedTo(m, e, n)
  }

  /** The whole invariant of a sender. */
  ghost predicate Sends(env: Env, m: Markov.Model, e: End, lead: string, sent: string, body: string) {
    SendForm(env, e, lead, sent, body) && Ready(m, e) && Walked(m, e)
  }

  /** The sender moved on; the receiving half is untouched. */
  ghost predicate Same(e: End, f: End) {
    f.me == e.me && f.rx == e.rx && (f.tx.state.Unstarted? <==> e.tx.state.Unstarted?) && (f.tx.state.Command? <==> e.tx.state.Command?)
  }

  predicate Delivers(a: Answer) {
    a.Accepted? || a.Busy?
  }

  /** No write fails. */
  predicate Lossless(r: Replies) {
    Delivers(r.command) && Delivers(r.response) && Delivers(r.leftover) && Delivers(r.batch) &&
    Delivers(r.checksum) && Delivers(r.footer) && Delivers(r.rest)
  }

  /** One write moves bytes from the buffer to the wire and changes nothing else. */
  lemma FlushKeeps(e: End, a: Answer, sent: string)
    requires Delivers(a)
    ensures var f := FlushOut(e, a);
            sent + e.tx.out == sent + f.wrote + f.end.tx.out && f.end == WithTx(e, e.tx.(out := f.end.tx.out)) &&
            |e.tx.out| == |f.wrote| + |f.end.tx.out|
  {
    if e.tx.out != "" && a.Accepted? {
      var n := if a.n <= |e.tx.out| then a.n else |e.tx.out|;
      assert e.tx.out == e.tx.out[..n] + e.tx.out[n..];
      assert sent + e.tx.out == sent + e.tx.out[..n] + e.tx.out[n..];
    }
  }

  lemma PushKeeps(e: End, text: string, a: Answer, sent: string)
    requires Delivers(a) && text != ""
    ensures var f := Push(e, text, a);
            f.end == WithTx(e, e.tx.(out := f.end.tx.out)) &&
            sent + f.wrote + f.end.tx.out == sent + (if e.tx.out == "" then text else e.tx.out) &&
            |f.end.tx.out| <= if e.tx.out == "" then |text| else |e.tx.out|
  {
    FlushKeeps(if e.tx.out == "" then WithTx(e, e.tx.(out := text)) else e, a, sent);
  }

  /** The walk and its counters are left alone. */
  lemma WalkKept(m: Markov.Model, e: End, f: End)
    requires Walked(m, e) && e.tx.state.Unstarted? == f.tx.state.Unstarted?
    requires f.tx.walk == e.tx.walk && f.tx.expectSend == e.tx.expectSend && f.tx.expectRecv == e.tx.expectRecv
    requires f.rx.commander == e.rx.commander && f.rx.info.sizes == e.rx.info.sizes
    ensures Walked(m, f)
  {
    hide Trace, After, Count;
    if !e.tx.state.Unstarted? {
      var n: nat :| WalkedTo(m, e, n);
      assert WalkedTo(m, f, n);
    }
  }

  /** A command or response on its way. */
  lemma LeadKeeps(e: End, lead: string, a: Answer, sent: string)
    requires Delivers(a) && lead != "" && (if e.tx.out == "" then sent == "" else sent + e.tx.out == lead)
    ensures var f := Push(e, lead, a);
            f.end == WithTx(e, e.tx.(out := f.end.tx.out)) && sent + f.wrote + f.end.tx.out == lead &&
            (f.end.tx.out == "" ==> sent + f.wrote == lead)
  {
    PushKeeps(e, lead, a, sent);
    assert "" + lead == lead && sent + Push(e, lead, a).wrote + "" == sent + Push(e, lead, a).wrote;
  }

  lemma CommandKeeps(env: Env, m: Markov.Model, e: End, sent: string, body: string, a: Answer)
    requires Sends(env, m, e, CommandText(OfferOf(e)), sent, body) && e.tx.state.Command? && Delivers(a)
    ensures var f := StageCommand(e, a);
            Sends(env, m, f.end, CommandText(OfferOf(e)), sent + f.wrote, body) &&
            (if f.end.tx.state.Command? then Same(e, f.end)
             else f.end.me == e.me && f.end.rx == e.rx.(phase := Authenticate) && f.end.tx.state.SendPayload?)
  {
    hide CommandText, WalkedTo, Push;
    var lead := CommandText(OfferOf(e));
    var f := StageCommand(e, a);
    CommandNotEmpty(OfferOf(e));
    LeadKeeps(e, lead, a, sent);
    assert lead + body == lead;
    WalkKept(m, e, f.end);
  }

  lemma ResponseKeeps(env: Env, m: Markov.Model, e: End, sent: string, body: string, a: Answer)
    requires Sends(env, m, e, ResponseText(e.me.host, NoError), sent, body) && Delivers(a)
    ensures var f := StageResponse(e, a);
            Sends(env, m, f.end, ResponseText(e.me.host, NoError), sent + f.wrote, body) && Same(e, f.end)
  {
    hide ResponseText, WalkedTo, Push;
    var lead := ResponseText(e.me.host, NoError);
    var f := StageResponse(e, a);
    if e.tx.state.Response? {
      ResponseNotEmpty(e.me.host, NoError);
      LeadKeeps(e, lead, a, sent);
      assert lead + body == lead;
      WalkKept(m, e, f.end);
    } else {
      assert sent + "" == sent;
    }
  }

  /** Leftover or fresh payload bytes on their way. */
  lemma FlushPayloadKeeps(env: Env, m: Markov.Model, e: End, lead: string, sent: string, body: string, a: Answer)
    requires Sends(env, m, e, lead, sent, body) && e.tx.state.SendPayload? && Delivers(a)
    ensures var f := FlushPayload(e, a);
            Sends(env, m, f.end, lead, sent + f.wrote, body) && Same(e, f.end) && f.end.tx.state.SendPayload?
    ensures FlushPayload(e, a).end.tx.walk == e.tx.walk
  {
    hide WalkedTo;
    FlushKeeps(e, a, sent);
    WalkKept(m, e, FlushPayload(e, a).end);
  }

  /** A new batch extends the payload by the letters it fills the buffer with. */
  lemma LoadKeeps(env: Env, m: Markov.Model, e: End, lead: string, sent: string, body: string, d: Draw) returns (more: string)
    requires Sends(env, m, e, lead, sent, body) && e.tx.state.SendPayload? && e.tx.out == "" && !DoneSending(e) && Markov.Sound(m)
    ensures var f := LoadBatch(e, NextBatch(e, d.steps), d);
            Sends(env, m, f, lead, sent, more) && Same(e, f) && f.tx.state.SendPayload?
  {
    hide WalkedTo, Gather, Letters;
    var b := NextBatch(e, d.steps);
    var f := LoadBatch(e, b, d);
    more := body + f.tx.out;
    BatchTallies(m, e, b, d);
    assert sent + e.tx.out == sent && sent + f.tx.out == lead + more;
  }

  lemma BatchTallies(m: Markov.Model, e: End, b: Batch, d: Draw)
    requires Markov.Sound(m) && Ready(m, e) && Walked(m, e) && !e.tx.state.Unstarted? && b == NextBatch(e, d.steps)
    ensures b.size == PACKET * b.sends && Walked(m, LoadBatch(e, b, d))
  {
    hide Gather, Trace, Count, After, Letters;
    var sized, c, start := e.rx.info.sizes.send > 0, e.rx.commander, Markov.Begin(m);
    var n: nat :| WalkedTo(m, e, n);
    var w := e.tx.walk.value;
    StartTallies(m, c, sized, w);
    var j := GatherTallies(m, c, sized, BatchLimit(e), w, NewBatch(w), 0, d.steps);
    AfterAdd(m, sized, start, n, j);
    TraceAdd(m, sized, start, n, j);
    CountAdd(Trace(m, sized, start, n), Trace(m, sized, w, j), Own(c));
    CountAdd(Trace(m, sized, start, n), Trace(m, sized, w, j), Other(c));
    assert WalkedTo(m, LoadBatch(e, b, d), n + j);
  }

  lemma StartTallies(m: Markov.Model, commander: bool, sized: bool, w: Markov.Walk)
    ensures Tallies(m, commander, sized, w, NewBatch(w), 0)
  {
  }

  lemma HasModel(env: Env, m: Markov.Model, e: End, lead: string, sent: string, body: string)
    requires Sends(env, m, e, lead, sent, body) && e.tx.state.SendPayload?
    ensures e.rx.loaded == Some(m) && e.tx.walk.Some?
  {
  }

  /** The payload is complete: on to the checksum. */
  lemma DoneKeeps(env: Env, m: Markov.Model, e: End, lead: string, sent: string, body: string)
    requires Sends(env, m, e, lead, sent, body) && e.tx.state.SendPayload? && e.tx.out == "" && DoneSending(e)
    ensures Sends(env, m, Goto(e, SendChecksum), lead, sent, body) && Same(e, Goto(e, SendChecksum))
  {
    hide WalkedTo, Mark;
    WalkKept(m, e, Goto(e, SendChecksum));
    assert sent + "" == sent;
  }

  lemma PayloadKeeps(env: Env, m: Markov.Model, e: End, lead: string, sent: string, body: string, a: Answer, b: Answer, d: Draw)
    returns (more: string)
    requires Sends(env, m, e, lead, sent, body) && Delivers(a) && Delivers(b) && Markov.Sound(m)
    ensures var f := StagePayload(e, a, b, d);
            Sends(env, m, f.end, lead, sent + f.wrote, more) && Same(e, f.end)
  {
    hide Sends, FlushPayload, LoadBatch, NextBatch, DoneSending;
    more := body;
    if e.tx.state.SendPayload? {
      var f := FlushPayload(e, a);
      HasModel(env, m, e, lead, sent, body);
      FlushPayloadKeeps(env, m, e, lead, sent, body, a);
      if f.end.tx.out == "" {
        if DoneSending(f.end) {
          DoneKeeps(env, m, f.end, lead, sent + f.wrote, body);
        } else {
          more := LoadKeeps(env, m, f.end, lead, sent + f.wrote, body, d);
          var g := LoadBatch(f.end, NextBatch(f.end, d.steps), d);
          FlushPayloadKeeps(env, m, g, lead, sent + f.wrote, more, b);
          assert sent + f.wrote + FlushPayload(g, b).wrote == sent + (f.wrote + FlushPayload(g, b).wrote);
        }
      }
    } else {
      assert sent + "" == sent;
    }
  }

  lemma ChecksumKeeps(env: Env, m: Markov.Model, e: End, lead: string, sent: string, body: string, a: Answer)
    requires Sends(env, m, e, lead, sent, body) && Delivers(a)
    ensures var f := StageChecksum(env, e, a);
            Sends(env, m, f.end, lead, sent + f.wrote, body) && Same(e, f.end)
  {
    hide WalkedTo, Push, ChecksumText;
    var f := StageChecksum(env, e, a);
    if e.tx.state.SendChecksum? && e.rx.info.sizes.send > 0 {
      var text := ChecksumText(env, e.tx.digested);
      ChecksumNotEmpty(env, e.tx.digested);
      PushKeeps(e, text, a, sent);
      assert sent + f.wrote + "" == sent + f.wrote;
    } else {
      assert sent + "" == sent && lead + body + "" == lead + body;
    }
    WalkKept(m, e, f.end);
  }

  lemma FooterKeeps(env: Env, m: Markov.Model, e: End, lead: string, sent: string, body: string, a: Answer)
    requires Sends(env, m, e, lead, sent, body) && Delivers(a)
    ensures var f := StageFooter(e, a);
            Sends(env, m, f.end, lead, sent + f.wrote, body) && Same(e, f.end)
  {
    hide WalkedTo, Push, Mark;
    var f, z := StageFooter(e, a), e.rx.info.sizes;
    var mark := Mark(env, z.send, body);
    if e.tx.state.SendFooter? && Known(z.send, z.sendZero) && Receipt(e) {
      PushKeeps(e, FOOTER, a, sent);
      assert sent + f.wrote + "" == sent + f.wrote;
      assert lead + body + mark + FOOTER == lead + (body + (mark + FOOTER));
    } else {
      assert sent + "" == sent && lead + body + mark == lead + (body + (mark + ""));
    }
    WalkKept(m, e, f.end);
  }

  lemma FlushStageKeeps(env: Env, m: Markov.Model, e: End, lead: string, sent: string, body: string, a: Answer)
    requires Sends(env, m, e, lead, sent, body)
    ensures var f := StageFlush(e, a);
            Sends(env, m, f.end, lead, sent + f.wrote, body) && Same(e, f.end)
  {
    hide WalkedTo;
    assert sent + "" == sent;
    WalkKept(m, e, StageFlush(e, a).end);
  }

  /** The part of a writable event up to the payload. */
  lemma MiddleKeeps(env: Env, m: Markov.Model, e: End, lead: string, sent: string, body: string, r: Replies, d: Draw)
    returns (more: string)
    requires Sends(env, m, e, lead, sent, body) && Lossless(r) && Markov.Sound(m) && !e.tx.state.Command?
    requires lead == if e.rx.commander then CommandText(OfferOf(e)) else ResponseText(e.me.host, NoError)
    ensures var f := Middle(e, r, d);
            Sends(env, m, f.end, lead, sent + f.wrote, more) && Same(e, f.end)
  {
    hide Sends, StageResponse, StagePayload, CommandText, ResponseText;
    var f := StageResponse(e, r.response);
    if e.rx.commander {
      ResponseOnlyFromServer(env, m, e, lead, sent, body, r.response);
    } else {
      ResponseKeeps(env, m, e, sent, body, r.response);
    }
    more := PayloadKeeps(env, m, f.end, lead, sent + f.wrote, body, r.leftover, r.batch, d);
    assert sent + f.wrote + StagePayload(f.end, r.leftover, r.batch, d).wrote ==
           sent + (f.wrote + StagePayload(f.end, r.leftover, r.batch, d).wrote);
  }

  lemma ResponseOnlyFromServer(env: Env, m: Markov.Model, e: End, lead: string, sent: string, body: string, a: Answer)
    requires Sends(env, m, e, lead, sent, body) && e.rx.commander
    ensures StageResponse(e, a) == Still(e) && sent + "" == sent
  {
  }

  lemma ClosingKeeps(env: Env, m: Markov.Model, e: End, lead: string, sent: string, body: string, r: Replies)
    requires Sends(env, m, e, lead, sent, body) && Lossless(r)
    ensures var f := Closing(env, e, r); Sends(env, m, f.end, lead, sent + f.wrote, body) && Same(e, f.end)
  {
    hide Sends, StageChecksum, StageFooter, StageFlush;
    var f := StageChecksum(env, e, r.checksum);
    var g := StageFooter(f.end, r.footer);
    var h := StageFlush(g.end, r.rest);
    ChecksumKeeps(env, m, e, lead, sent, body, r.checksum);
    FooterKeeps(env, m, f.end, lead, sent + f.wrote, body, r.footer);
    FlushStageKeeps(env, m, g.end, lead, sent + f.wrote + g.wrote, body, r.rest);
    assert sent + f.wrote + g.wrote + h.wrote == sent + (f.wrote + g.wrote + h.wrote);
  }

  /** The barrier is not part of the invariant. */
  lemma BarrierKeeps(env: Env, m: Markov.Model, e: End, lead: string, sent: string, body: string)
    requires Sends(env, m, e, lead, sent, body)
    ensures var f := WithTx(e, e.tx.(barrier := 0)); Sends(env, m, f, lead, sent, body) && Same(e, f)
  {
    hide WalkedTo;
    WalkKept(m, e, WithTx(e, e.tx.(barrier := 0)));
  }

  /** A whole writable event keeps the invariant. Received state changes in one way only: a
      commander whose command is out starts to listen. */
  lemma WriteKeeps(env: Env, m: Markov.Model, e: End, lead: string, sent: string, body: string, r: Replies, d: Draw)
    returns (more: string)
    requires Sends(env, m, e, lead, sent, body) && Lossless(r) && Markov.Sound(m)
    requires lead == if e.rx.commander then CommandText(OfferOf(e)) else ResponseText(e.me.host, NoError)
    ensures var f := OnWritable(env, e, r, d);
            Sends(env, m, f.end, lead, sent + f.wrote, more) && f.end.me == e.me &&
            (f.end.tx.state.Unstarted? <==> e.tx.state.Unstarted?) && (f.end.tx.state.Command? ==> e.tx.state.Command?) &&
            if e.tx.state.Command? && !f.end.tx.state.Command? then f.end.rx == e.rx.(phase := Authenticate)
            else f.end.rx == e.rx
  {
    hide Sends, Middle, Closing, StageCommand, CommandText, ResponseText;
    var e0 := WithTx(e, e.tx.(barrier := 0));
    BarrierKeeps(env, m, e, lead, sent, body);
    if e.tx.state.Command? { CommandIsCommanders(env, m, e, lead, sent, body); }
    CommandStage(env, m, e0, lead, sent, body, r.command);
    var f1 := StageCommand(e0, r.command);
    var s1, f2 := sent + f1.wrote, Middle(f1.end, r, d);
    var f3 := Closing(env, f2.end, r);
    if f1.end.tx.state.Command? {
      more := body;
      StillCommanding(env, f1.end, r, d);
      assert f1.wrote + "" + "" == f1.wrote;
    } else {
      more := MiddleKeeps(env, m, f1.end, lead, s1, body, r, d);
      ClosingKeeps(env, m, f2.end, lead, s1 + f2.wrote, more, r);
      assert s1 + f2.wrote + f3.wrote == sent + (f1.wrote + f2.wrote + f3.wrote);
    }
  }

  lemma CommandStage(env: Env, m: Markov.Model, e: End, lead: string, sent: string, body: string, a: Answer)
    requires Sends(env, m, e, lead, sent, body) && Delivers(a)
    requires e.tx.state.Command? ==> lead == CommandText(OfferOf(e))
    ensures var f := StageCommand(e, a);
            Sends(env, m, f.end, lead, sent + f.wrote, body) && f.end.me == e.me &&
            (f.end.tx.state.Unstarted? <==> e.tx.state.Unstarted?) && (f.end.tx.state.Command? ==> e.tx.state.Command?) &&
            f.end.rx == if e.tx.state.Command? && !f.end.tx.state.Command? then e.rx.(phase := Authenticate) else e.rx
  {
    hide Sends, CommandText, Push;
    if e.tx.state.Command? {
      CommandKeeps(env, m, e, sent, body, a);
    } else {
      assert sent + "" == sent;
    }
  }

  lemma StillCommanding(env: Env, e: End, r: Replies, d: Draw)
    requires e.tx.state.Command?
    ensures Middle(e, r, d) == Still(e) && Closing(env, e, r) == Still(e)
  {
    assert "" + "" == "" && "" + "" + "" == "";
  }

  lemma CommandIsCommanders(env: Env, m: Markov.Model, e: End, lead: string, sent: string, body: string)
    requires Sends(env, m, e, lead, sent, body) && e.tx.state.Command?
    ensures e.rx.commander
  {
  }

  // ---- Pauses ----

  /** A barrier is set only while payload is being sent, or there is an error. */
  ghost predicate PauseForm(e: End) {
    (e.tx.barrier > 0 ==> e.tx.state.SendPayload? || e.rx.error != NoError) && (e.tx.state.Broken? ==> e.rx.error != NoError)
  }

  lemma FlushPauses(e: End, a: Answer)
    requires PauseForm(e)
    ensures PauseForm(FlushOut(e, a).end) && FlushOut(e, a).end.tx.barrier == e.tx.barrier
    ensures FlushOut(e, a).end.tx.state == e.tx.state || (FlushOut(e, a).end.tx.state.Broken? && FlushOut(e, a).end.tx.out != "")
    ensures FlushOut(e, a).end.rx.loaded == e.rx.loaded && FlushOut(e, a).end.tx.walk == e.tx.walk
  {
  }

  lemma PushPauses(e: End, text: string, a: Answer)
    requires PauseForm(e)
    ensures PauseForm(Push(e, text, a).end) && Push(e, text, a).end.tx.barrier == e.tx.barrier
    ensures Push(e, text, a).end.tx.state == e.tx.state || Push(e, text, a).end.tx.state.Broken?
    ensures Push(e, text, a).end.tx.state.Broken? && !e.tx.state.Broken? ==> Push(e, text, a).end.rx.error != NoError
  {
    FlushPauses(if e.tx.out == "" then WithTx(e, e.tx.(out := text)) else e, a);
  }

  lemma EarlyStagePauses(e: End, a: Answer, b: Answer)
    requires PauseForm(e) && e.tx.barrier == 0
    ensures var f := StageResponse(StageCommand(e, a).end, b).end; PauseForm(f) && f.tx.barrier == 0
  {
    hide Push, CommandText, ResponseText;
    PushPauses(e, CommandText(OfferOf(e)), a);
    var f := StageCommand(e, a).end;
    PushPauses(f, ResponseText(f.me.host, f.rx.error), b);
  }

  lemma PayloadPauses(e: End, a: Answer, b: Answer, d: Draw)
    requires PauseForm(e) && e.tx.barrier == 0
    ensures PauseForm(StagePayload(e, a, b, d).end)
  {
    hide Gather, Letters, FlushOut;
    FlushPauses(e, a);
    var f := FlushPayload(e, a).end;
    if e.tx.state.SendPayload? && f.rx.loaded.Some? && f.tx.walk.Some? {
      FlushPauses(LoadBatch(f, NextBatch(f, d.steps), d), b);
    }
  }

  lemma LateStagePauses(env: Env, e: End, a: Answer, b: Answer, c: Answer)
    requires PauseForm(e)
    ensures PauseForm(StageFlush(StageFooter(StageChecksum(env, e, a).end, b).end, c).end)
  {
    hide ChecksumText, Push, FlushOut;
    PushPauses(e, ChecksumText(env, e.tx.digested), a);
    var f := StageChecksum(env, e, a).end;
    PushPauses(f, FOOTER, b);
    FlushPauses(StageFooter(f, b).end, c);
  }

  /** A stream with a barrier asks for a deferral or is done, and one without a barrier asks for
      none: whatever the sockets answered. */
  lemma PauseDefers(env: Env, e: End, r: Replies, d: Draw)
    requires PauseForm(e)
    ensures var f := OnWritable(env, e, r, d).end; PauseForm(f)
    ensures var w := WantedEvents(e);
            if e.tx.barrier > 0 then w.done || (w.deferred && !w.write) else !w.deferred
  {
    hide StageCommand, StageResponse, StagePayload, StageChecksum, StageFooter, StageFlush;
    var e0 := WithTx(e, e.tx.(barrier := 0));
    EarlyStagePauses(e0, r.command, r.response);
    var f2 := StageResponse(StageCommand(e0, r.command).end, r.response).end;
    PayloadPauses(f2, r.leftover, r.batch, d);
    LateStagePauses(env, StagePayload(f2, r.leftover, r.batch, d).end, r.checksum, r.footer, r.rest);
  }

  // ---- One batch ----

  /** What an emptied buffer is refilled with: letters for the packets to the server of a commander,
      or to the origin of a server, among the observations consumed; and a pause, from now on, of the
      delay since the last of them when it exceeds ten milliseconds. */
  lemma BatchExact(e: End, a: Answer, b: Answer, d: Draw) returns (s: seq<Seen>)
    requires e.tx.state.SendPayload? && e.tx.out == "" && !DoneSending(e) && Delivers(a) && Delivers(b)
    requires e.rx.loaded.Some? && e.tx.walk.Some? && Markov.Sound(e.rx.loaded.value)
    ensures s == Trace(e.rx.loaded.value, e.rx.info.sizes.send > 0, e.tx.walk.value, |s|) && |s| <= d.steps
    ensures var f, c, z := StagePayload(e, a, b, d), e.rx.commander, e.rx.info.sizes;
            var own := Count(s, if c then Markov.ToServer else Markov.ToOrigin);
            var left := if z.send > 0 && z.send - e.tx.payload < 32768 then z.send - e.tx.payload else 32768;
            var n := if z.send > 0 && left < 1434 * own then left else 1434 * own;
            f.wrote + f.end.tx.out == Letters(d.letter, n) && f.end.tx.payload == e.tx.payload + |f.wrote| &&
            f.end.tx.digested == (if z.send > 0 then e.tx.digested + Letters(d.letter, n) else e.tx.digested) &&
            f.end.tx.expectSend == e.tx.expectSend + 1434 * own &&
            f.end.tx.expectRecv == e.tx.expectRecv + 1434 * Count(s, if c then Markov.ToOrigin else Markov.ToServer) &&
            f.end.tx.barrier == (if DelaySince(s, c) > 10000 then d.now + DelaySince(s, c) else e.tx.barrier) &&
            f.end.tx.state == SendPayload
  {
    hide Gather, Count, DelaySince, Letters, After, Trace;
    var m, c, sized, w := e.rx.loaded.value, e.rx.commander, e.rx.info.sizes.send > 0, e.tx.walk.value;
    StartTallies(m, c, sized, w);
    var k := GatherTallies(m, c, sized, BatchLimit(e), w, NewBatch(w), 0, d.steps);
    s := Trace(m, sized, w, k);
    var g := LoadBatch(e, NextBatch(e, d.steps), d);
    assert FlushPayload(e, a) == Still(e);
    FlushKeeps(g, b, "");
    assert "" + FlushPayload(g, b).wrote == FlushPayload(g, b).wrote && "" + g.tx.out == g.tx.out;
  }
}
