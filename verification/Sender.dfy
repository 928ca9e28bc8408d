/** The sending half of a stream: command or response, payload batches drawn from the Markov
    model, checksum, footer. Each stage is a function of the endpoint and of what the socket
    answers to its writes. */
module Sender {
  import opened Options
  import opened CStrings
  import opened Headers
  import opened Receiver
  import Markov

  datatype SendState =
    | Unstarted | Command | Response | SendPayload | SendChecksum | SendFooter | Flush | Sent | Broken

  /** `out` is the unwritten rest of the send buffer, empty when there is no buffer. A positive
      `barrier` is the time before which no write is wanted. */
  datatype Tx = Tx(
    state: SendState,
    out: string,
    payload: nat,
    digested: string,
    expectSend: nat,
    expectRecv: nat,
    barrier: nat,
    walk: Option<Markov.Walk>)

  /** One endpoint; `me` is what it calls itself and which model it offers. */
  datatype End = End(me: Offer, rx: Rx, tx: Tx)

  /** A new stream: with a model it is the commander, without one it waits for a command. */
  function NewEnd(me: Offer, model: Option<Markov.Model>, sizes: Sizes): End {
    var c := model.Some?;
    End(me,
        Rx(c, if c then Idle else Authenticate, NoError, Nothing, 0, "", "", Info(Some(me.id), None, sizes, "", 0, 0),
           model, 0, "", false),
        Tx(if c then Command else Unstarted, "", 0, "", 0, 0, 0, if c then Some(Markov.Begin(model.value)) else None))
  }

  // ---- Packet batches ----

  const PACKET: nat := 1434
  const AT_ONCE: nat := 10000
  const WRITE_BUFFER: nat := 32768

  /** A batch under construction: bytes to send, delay since the last own packet, packets
      expected in each direction, and whether the loop was left by a break. */
  datatype Batch = Batch(walk: Markov.Walk, size: nat, delay: nat, sends: nat, receives: nat, stop: bool)

  function NewBatch(w: Markov.Walk): Batch {
    Batch(w, 0, 0, 0, 0, false)
  }

  function Own(commander: bool): Markov.Observation {
    if commander then Markov.ToServer else Markov.ToOrigin
  }

  function Other(commander: bool): Markov.Observation {
    Own(!commander)
  }

  /** Pause once the delay exceeds what is sent at once. */
  function Paced(b: Batch): Batch {
    b.(stop := b.delay > AT_ONCE)
  }

  /** What one observation does to a batch; the model restarts at its end only when a specific
      size is to be sent. */
  function Account(m: Markov.Model, commander: bool, sized: bool, b: Batch, o: Markov.Outcome): Batch
    requires o.Emitted?
  {
    var c := b.(walk := o.walk);
    if o.obs == Other(commander) then Paced(c.(receives := b.receives + 1, delay := b.delay + o.delay))
    else if o.obs == Own(commander) then Paced(c.(size := b.size + PACKET, sends := b.sends + 1, delay := o.delay))
    else if sized then Paced(c.(walk := Markov.Restart(m, o.walk)))
    else c.(stop := true)
  }

  function Gather(m: Markov.Model, commander: bool, sized: bool, limit: nat, b: Batch, steps: nat): Batch
    decreases steps
  {
    if steps == 0 || b.stop || b.size >= limit then b
    else Gather(m, commander, sized, limit, Observe(m, commander, sized, b), steps - 1)
  }

  /** One iteration of the packet loop. A sound model never aborts (Markov.NextNeverAborts). */
  function Observe(m: Markov.Model, commander: bool, sized: bool, b: Batch): Batch {
    var o := Markov.Next(m, b.walk);
    if o.Emitted? then Account(m, commander, sized, b, o) else b.(stop := true)
  }

  predicate Complete(b: Batch, limit: nat) {
    b.stop || b.size >= limit
  }

  /** Once complete, further steps change nothing: the loop's result does not depend on the bound. */
  lemma {:induction false} GatherStable(m: Markov.Model, commander: bool, sized: bool, limit: nat, b: Batch, i: nat, j: nat)
    requires Complete(Gather(m, commander, sized, limit, b, i), limit) && i <= j
    ensures Gather(m, commander, sized, limit, b, j) == Gather(m, commander, sized, limit, b, i)
    decreases i
  {
    hide Observe;
    if i > 0 && !Complete(b, limit) {
      GatherStable(m, commander, sized, limit, Observe(m, commander, sized, b), i - 1, j - 1);
    }
  }

  /** A batch that is complete for a limit is complete for every smaller one. */
  lemma {:induction false} GatherSmaller(m: Markov.Model, commander: bool, sized: bool, small: nat, large: nat, b: Batch, n: nat)
    requires small <= large && Complete(Gather(m, commander, sized, large, b, n), large)
    ensures Complete(Gather(m, commander, sized, small, b, n), small)
    decreases n
  {
    hide Observe;
    if n > 0 && !Complete(b, small) && !Complete(b, large) {
      GatherSmaller(m, commander, sized, small, large, Observe(m, commander, sized, b), n - 1);
    }
  }

  // ---- Writing ----

  /** What the socket answers to one write. */
  datatype Answer = Accepted(n: nat) | Busy | HungUp | Fault

  /** What a handler does: the endpoint after it and the bytes it wrote. */
  datatype Effect = Effect(end: End, wrote: string)

  function Still(e: End): Effect {
    Effect(e, "")
  }

  function WithTx(e: End, t: Tx): End {
    e.(tx := t)
  }

  function Break(e: End, error: StreamError): End {
    e.(tx := e.tx.(state := Broken), rx := e.rx.(error := error))
  }

  /** _tgenstream_flushOut: one write of the unwritten rest, when there is any. */
  function FlushOut(e: End, a: Answer): Effect {
    if e.tx.out == "" then Still(e)
    else
      match a
      case Accepted(n) =>
        var k := if n <= |e.tx.out| then n else |e.tx.out|;
        Effect(WithTx(e, e.tx.(out := e.tx.out[k..])), e.tx.out[..k])
      case Busy => Still(e)
      case HungUp => Still(Break(e, WriteEof))
      case Fault => Still(Break(e, WriteError))
  }

  /** Fill an empty buffer, then write. */
  function Push(e: End, text: string, a: Answer): Effect {
    FlushOut(if e.tx.out == "" then WithTx(e, e.tx.(out := text)) else e, a)
  }

  function Goto(e: End, s: SendState): End {
    WithTx(e, e.tx.(state := s))
  }

  /** Move on to a state once the buffer is written out. */
  function WhenWritten(f: Effect, s: SendState): Effect {
    if f.end.tx.out != "" then f else Effect(Goto(f.end, s), f.wrote)
  }

  lemma CommandNotEmpty(o: Offer)
    ensures CommandText(o) != ""
  {
    assert |PASSWORD| > 0;
  }

  lemma ResponseNotEmpty(host: string, e: StreamError)
    ensures ResponseText(host, e) != ""
  {
    assert |PASSWORD| > 0;
  }

  function OfferOf(e: End): Offer {
    e.me.(sizes := e.rx.info.sizes)
  }

  /** Once the command is out the commander starts to wait for the response. */
  function StageCommand(e: End, a: Answer): Effect {
    if e.tx.state != Command then Still(e)
    else
      var f := WhenWritten(Push(e, CommandText(OfferOf(e)), a), SendPayload);
      if f.end.tx.state == SendPayload then Effect(f.end.(rx := f.end.rx.(phase := Authenticate)), f.wrote) else f
  }

  function StageResponse(e: End, a: Answer): Effect {
    if e.tx.state != Response then Still(e)
    else
      var next := if e.rx.error == NoError then SendPayload else Sent;
      WhenWritten(Push(e, ResponseText(e.me.host, e.rx.error), a), next)
  }

  /** Write payload bytes and count the accepted ones. */
  function FlushPayload(e: End, a: Answer): Effect {
    var f := FlushOut(e, a);
    Effect(WithTx(f.end, f.end.tx.(payload := e.tx.payload + |f.wrote|)), f.wrote)
  }

  predicate DoneSending(e: End) {
    var z := e.rx.info.sizes;
    if z.send > 0 then e.tx.payload >= z.send
    else z.sendZero || (e.tx.walk.Some? && e.tx.walk.value.found)
  }

  function BatchLimit(e: End): nat {
    var z := e.rx.info.sizes;
    if z.send > 0 && z.send - e.tx.payload < WRITE_BUFFER then (if z.send < e.tx.payload then 0 else z.send - e.tx.payload)
    else WRITE_BUFFER
  }

  function Letters(c: char, n: nat): (s: string)
    ensures |s| == n && forall i :: 0 <= i < n ==> s[i] == c
  {
    seq(n, i => c)
  }

  /** The choices of one payload stage from outside: loop iterations, letter, time. */
  datatype Draw = Draw(steps: nat, letter: char, now: nat)

  /** What a batch does to the endpoint: the walk moves on, the counters grow, a pause is set and
      a buffer of letters is filled and fed to the checksum. */
  function LoadBatch(e: End, b: Batch, d: Draw): End {
    var sized := e.rx.info.sizes.send > 0;
    var text := Letters(d.letter, if sized && BatchLimit(e) < b.size then BatchLimit(e) else b.size);
    WithTx(e, e.tx.(
      walk := Some(b.walk),
      expectSend := e.tx.expectSend + PACKET * b.sends,
      expectRecv := e.tx.expectRecv + PACKET * b.receives,
      barrier := if b.delay > AT_ONCE then d.now + b.delay else e.tx.barrier,
      out := text,
      digested := if sized then e.tx.digested + text else e.tx.digested))
  }

  function NextBatch(e: End, steps: nat): Batch
    requires e.rx.loaded.Some? && e.tx.walk.Some?
  {
    Gather(e.rx.loaded.value, e.rx.commander, e.rx.info.sizes.send > 0, BatchLimit(e), NewBatch(e.tx.walk.value), steps)
  }

  /** Write what is left; once all is written either move on or write a new batch. */
  function StagePayload(e: End, a: Answer, b: Answer, d: Draw): Effect {
    if e.tx.state != SendPayload then Still(e)
    else if e.rx.loaded.None? || e.tx.walk.None? then Still(Break(e, BadModel))
    else
      var f := FlushPayload(e, a);
      if f.end.tx.out != "" then f
      else if DoneSending(f.end) then Effect(Goto(f.end, SendChecksum), f.wrote)
      else
        var g := FlushPayload(LoadBatch(f.end, NextBatch(f.end, d.steps), d), b);
        Effect(g.end, f.wrote + g.wrote)
  }

  function ChecksumText(env: Env, digested: string): string {
    "MD5 " + env.md5(digested) + "\n"
  }

  function StageChecksum(env: Env, e: End, a: Answer): Effect {
    if e.tx.state != SendChecksum then Still(e)
    else if e.rx.info.sizes.send == 0 then Still(Goto(e, SendFooter))
    else WhenWritten(Push(e, ChecksumText(env, e.tx.digested), a), SendFooter)
  }

  lemma ChecksumNotEmpty(env: Env, digested: string)
    ensures ChecksumText(env, digested) != ""
  {
  }

  const FOOTER: string := "FIN\n"

  /** The footer waits until everything expected from the peer, checksum included, has come. */
  function StageFooter(e: End, a: Answer): Effect {
    var z := e.rx.info.sizes;
    if e.tx.state != SendFooter then Still(e)
    else if z.send == 0 && !z.sendZero then Still(Goto(e, Flush))
    else if !e.rx.phase.Footer? && !e.rx.phase.Success? then Still(e)
    else WhenWritten(Push(e, FOOTER, a), Flush)
  }

  function StageFlush(e: End, a: Answer): Effect {
    if e.tx.state != Flush then Still(e) else WhenWritten(FlushOut(e, a), Sent)
  }

  /** The socket's answers to the at most seven writes of one call. */
  datatype Replies = Replies(
    command: Answer, response: Answer, leftover: Answer, batch: Answer, checksum: Answer, footer: Answer, rest: Answer)

  /** The stages between the command and the end of the payload. */
  function Middle(e: End, r: Replies, d: Draw): Effect {
    var f := StageResponse(e, r.response);
    var g := StagePayload(f.end, r.leftover, r.batch, d);
    Effect(g.end, f.wrote + g.wrote)
  }

  /** The stages behind the payload. */
  function Closing(env: Env, e: End, r: Replies): Effect {
    var f := StageChecksum(env, e, r.checksum);
    var g := StageFooter(f.end, r.footer);
    var h := StageFlush(g.end, r.rest);
    Effect(h.end, f.wrote + g.wrote + h.wrote)
  }

  /** _tgenstream_onWritable: one stage after the other. */
  function OnWritable(env: Env, e: End, r: Replies, d: Draw): Effect {
    var f := StageCommand(WithTx(e, e.tx.(barrier := 0)), r.command);
    var g := Middle(f.end, r, d);
    var h := Closing(env, g.end, r);
    Effect(h.end, f.wrote + g.wrote + h.wrote)
  }

  /** What the receiving half hands over when it has processed a header or a model. */
  function Absorb(e: End, rx: Rx): End {
    var t := if rx.cue == e.rx.cue then e.tx
             else if rx.cue.Quit? then e.tx.(state := Sent)
             else e.tx.(state := Response);
    var u := if t.walk.None? && rx.loaded.Some? then t.(walk := Some(Markov.Begin(rx.loaded.value))) else t;
    End(e.me, rx, u)
  }

  // ---- Wanted events ----

  datatype Wants = Wants(done: bool, read: bool, write: bool, deferred: bool)

  predicate RecvDone(e: End) {
    e.rx.phase.Success? || e.rx.phase.Failed? || (e.rx.phase.Idle? && e.tx.state.Broken?) || e.rx.error != NoError
  }

  predicate SendDone(e: End) {
    e.tx.state.Sent? || e.tx.state.Broken? || (e.tx.state.Unstarted? && e.rx.phase.Failed?) || e.rx.error != NoError
  }

  /** With an unknown receive size, receiving ends when sending has and the payload reaches what
      the model predicted. */
  function FinishReceiving(e: End): End {
    if SendDone(e) && !RecvDone(e) && e.rx.info.sizes.recv == 0 && !e.rx.info.sizes.recvZero &&
       e.rx.payload >= e.tx.expectRecv
    then e.(rx := e.rx.(phase := Success, line := "")) else e
  }

  /** _tgenstream_computeWantedEvents, on the concluded endpoint. */
  function WantedEvents(e: End): Wants {
    if RecvDone(e) && SendDone(e) then Wants(true, false, false, false)
    else
      var read := !RecvDone(e) && !e.rx.phase.Idle?;
      var write := !SendDone(e) && !e.tx.state.Unstarted? && (!e.tx.state.SendFooter? || e.rx.checksumSeen);
      Wants(false, read, write && e.tx.barrier == 0, write && e.tx.barrier > 0)
  }
}
