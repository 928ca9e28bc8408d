/** The stream object: the buffered reader and the writer of one endpoint, on mutable fields. */
module StreamObject {
  import opened Options
  import opened CStrings
  import opened Headers
  import opened Receiver
  import opened Sender
  import opened MarkovObject
  import Markov

  const READ_BUFFER: nat := 65536

  datatype ReadResult = Data(bytes: string) | Again | Closed | Broke

  /** A connected socket: bytes on their way in, bytes accepted on their way out. The kernel's
      choices are nondeterministic. */
  class Transport {
    var incoming: string
    var outgoing: string

    constructor ()
      ensures incoming == "" && outgoing == ""
    {
      incoming, outgoing := "", "";
    }

    /** read(2): some bytes in order, or nothing yet, or end of file once all bytes are read, or a
        failure. */
    method Read(limit: nat) returns (r: ReadResult)
      requires limit > 0
      modifies this`incoming
      ensures r.Data? ==> 0 < |r.bytes| <= limit && old(incoming) == r.bytes + incoming
      ensures !r.Data? ==> incoming == old(incoming)
      ensures r.Closed? ==> incoming == ""
    {
      if * {
        return Again;
      } else if * {
        return Broke;
      }
      if incoming == "" {
        return Closed;
      }
      var n :| 0 < n <= limit && n <= |incoming|;
      r := Data(incoming[..n]);
      incoming := incoming[n..];
    }

    /** write(2): some of the bytes, or nothing yet, or the peer is gone, or a failure. */
    method Write(data: string) returns (a: Answer)
      requires data != ""
      modifies this`outgoing
      ensures a.Accepted? ==> 0 < a.n <= |data| && outgoing == old(outgoing) + data[..a.n]
      ensures !a.Accepted? ==> outgoing == old(outgoing)
    {
      if * {
        return Busy;
      } else if * {
        return HungUp;
      } else if * {
        return Fault;
      }
      var n :| 0 < n <= |data|;
      outgoing := outgoing + data[..n];
      a := Accepted(n);
    }
  }

  /** How the reading of one event ended. */
  datatype Ending = Open | AtEof | AtFault

  function Finish(rx: Rx, e: Ending): Rx {
    match e
    case Open => rx
    case AtEof => Eof(rx)
    case AtFault => Fail(rx, ReadError)
  }

  /** The automaton state behind a freshly set reading state: the phases that need no input are
      passed at once. */
  function Norm(rx: Rx): Rx {
    match rx.phase
    case Payload => EnterPayload(rx)
    case Checksum => EnterChecksum(rx)
    case Footer => EnterFooter(rx)
    case Model => if rx.loaded.Some? then EnterPayload(rx.(cue := Respond)) else rx
    case _ => rx
  }

  /** A phase that needs input before it can be left. */
  predicate Waits(p: Phase, sizes: Sizes, loaded: bool) {
    match p
    case Payload => sizes.recv > 0 || !sizes.recvZero
    case Checksum => sizes.recv > 0
    case Footer => sizes.recv > 0 || sizes.recvZero
    case Model => !loaded
    case _ => true
  }

  /** The sizes of a new stream. An unset receive size clears the send-zero flag: the source
      resets send.requestedZero where recv.requestedZero is meant. */
  function NewSizes(send: Option<nat>, recv: Option<nat>): Sizes {
    Sizes(
      if send.Some? then send.value else 0,
      send == Some(0) && recv.Some?,
      if recv.Some? then recv.value else 0,
      recv == Some(0))
  }

  function CueState(c: Cue): SendState {
    if c.Quit? then Sent else Response
  }

  /** What is left of a send buffer. */
  function Unwritten(b: Option<string>, offset: nat): string {
    if b.None? || offset > |b.value| then "" else b.value[offset..]
  }

  function Bytes(b: Option<string>): string {
    if b.Some? then b.value else ""
  }

  /** Every loaded model is validated and its observation vertices are typed. */
  ghost predicate EnvOk(env: Env) {
    (forall t: string, seed: nat :: env.fromText(t, seed).Some? ==> Markov.Sound(env.fromText(t, seed).value)) &&
    (forall p: string, seed: nat :: env.fromPath(p, seed).Some? ==> Markov.Sound(env.fromPath(p, seed).value))
  }

  /** The recv part of a stream: state, unprocessed bytes, password position, unfinished model
      text, payload count, checksummed payload, whether a checksum line came. */
  datatype Recv = Recv(
    phase: Phase, buffer: Option<string>, auth: nat, blob: Option<string>, payload: nat, digested: string, checksumSeen: bool)

  /** The send part: state, buffer and how much of it is written, payload count, checksummed
      payload, expected bytes in each direction, deferral barrier. */
  datatype Send = Send(
    state: SendState, buffer: Option<string>, offset: nat, payload: nat, digested: string,
    expectSend: nat, expectRecv: nat, barrier: nat)

  class Stream {
    const env: Env
    const me: Offer
    const commander: bool
    const transport: Transport

    var error: StreamError
    var info: Info
    var mmodel: MarkovModel?

    var recv: Recv
    ghost var cue: Cue
    var send: Send

    constructor (env: Env, me: Offer, transport: Transport, mmodel: MarkovModel?, sendSize: Option<nat>, recvSize: Option<nat>)
      requires EnvOk(env) && NulFree(transport.incoming) && (mmodel != null ==> mmodel.Valid())
      ensures Valid() && Settled() && fresh(this)
      ensures this.env == env && this.me == me && this.transport == transport && this.mmodel == mmodel
      ensures mmodel != null && mmodel.State() == Markov.Begin(mmodel.model) ==>
              State() == NewEnd(me, Some(mmodel.model), NewSizes(sendSize, recvSize))
      ensures mmodel == null ==> State() == NewEnd(me, None, NewSizes(sendSize, recvSize))
    {
      this.env, this.me, this.transport, this.mmodel := env, me, transport, mmodel;
      commander, error := mmodel != null, NoError;
      info := Info(Some(me.id), None, NewSizes(sendSize, recvSize), "", 0, 0);
      recv := Recv(if mmodel != null then Idle else Authenticate, None, 0, None, 0, "", false);
      send := Send(if mmodel != null then Command else Unstarted, None, 0, 0, "", 0, 0, 0);
      cue := Nothing;
    }

    // ---- Abstraction ----

    ghost function Loaded(): Option<Markov.Model>
      reads this
    {
      if mmodel == null then None else Some(mmodel.model)
    }

    /** The fields of the receiving half, without the buffered bytes. */
    ghost function Base(): Rx
      reads this
    {
      Rx(commander, recv.phase, error, cue, recv.auth, "", Bytes(recv.blob), info, Loaded(), recv.payload, recv.digested, recv.checksumSeen)
    }

    /** The receiving half if the reading state were p: buffered bytes count as read. */
    ghost function ViewAs(p: Phase): Rx
      reads this
    {
      Run(env, Norm(Base().(phase := p)), Bytes(recv.buffer))
    }

    ghost function View(): Rx
      reads this
    {
      Run(env, Norm(Base()), Bytes(recv.buffer))
    }

    /** No byte on its way or kept is NUL, and a kept buffer is not empty. */
    ghost predicate BufferOk()
      reads this`recv, transport`incoming
    {
      (recv.buffer.Some? ==> recv.buffer.value != "" && NulFree(recv.buffer.value)) && NulFree(transport.incoming)
    }

    /** A kept buffer that may hold more than an unfinished line fits one read. */
    ghost predicate BufferFits()
      reads this`recv
    {
      Stopped(recv.phase) || (LinePhase(recv.phase) && NEWLINE !in Bytes(recv.buffer)) || |Bytes(recv.buffer)| < READ_BUFFER
    }

    ghost predicate RecvValid()
      reads this`recv, this`info, this`mmodel, this`cue, transport`incoming, mmodel
    {
      EnvOk(env) && (mmodel != null ==> mmodel.Valid()) && BufferOk() && BufferFits() &&
      recv.auth <= |PASSWORD| &&
      (recv.blob.Some? ==> recv.phase.Model? || Stopped(recv.phase)) &&
      (recv.phase.Idle? || recv.phase.Authenticate? ==> recv.buffer.None? && recv.blob.None?) &&
      (Early(recv.phase) && !recv.phase.Model? ==> (mmodel != null <==> commander) && cue == Nothing) &&
      (recv.phase.Model? ==> !commander && cue == Nothing) &&
      (recv.phase.Model? ==> if mmodel == null then |Bytes(recv.blob)| < info.modelSize else recv.blob.None?) &&
      (Early(recv.phase) ==> recv.payload == 0) &&
      (recv.phase.Payload? && info.sizes.recv > 0 ==> recv.payload < info.sizes.recv) &&
      (cue.Respond? ==> !commander)
    }

    ghost predicate SendOk()
      reads this`send
    {
      if send.buffer.Some? then send.offset < |send.buffer.value| else send.offset == 0
    }

    /** Only a commander that has received nothing sends a command, only a server responds. */
    ghost predicate SendValid()
      reads this`send, this`recv
    {
      SendOk() && (send.state.Response? ==> !commander) && (send.state.Command? ==> commander && recv.phase.Idle?)
    }

    ghost predicate Valid()
      reads this, transport, mmodel
    {
      RecvValid() && SendValid()
    }

    /** No stranded data: between events only an unfinished line is kept. */
    ghost predicate Settled()
      reads this`recv, this`info, this`mmodel
    {
      (recv.buffer.Some? && !Stopped(recv.phase) ==> LinePhase(recv.phase) && NEWLINE !in recv.buffer.value) &&
      Waits(recv.phase, info.sizes, mmodel != null)
    }

    // ---- Reading ----

    /** Drain the buffer first. The rest is copied as a C string. */
    method ReadBuffered(limit: nat) returns (data: string)
      requires recv.buffer.Some? && recv.buffer.value != "" && limit > 0
      modifies this`recv
      ensures recv == old(recv).(buffer := recv.buffer)
      ensures |data| <= limit && data != ""
      ensures |old(recv.buffer.value)| <= limit ==> data == old(recv.buffer.value) && recv.buffer.None?
      ensures |old(recv.buffer.value)| > limit ==>
              data == old(recv.buffer.value)[..limit] && recv.buffer == Some(CString(old(recv.buffer.value)[limit..]))
    {
      if |recv.buffer.value| <= limit {
        data := recv.buffer.value;
        recv := recv.(buffer := None);
      } else {
        data := recv.buffer.value[..limit];
        recv := recv.(buffer := Some(CString(recv.buffer.value[limit..])));
      }
    }

    /** Bytes from the buffer or else from the socket. An end of file is a failure unless the
        payload may end there. */
    method Read(limit: nat) returns (r: ReadResult, ghost got: string)
      requires BufferOk() && limit > 0
      modifies this`recv, this`error, transport`incoming
      ensures BufferOk() && old(transport.incoming) == got + transport.incoming
      ensures recv == old(recv).(buffer := recv.buffer, phase := recv.phase)
      ensures r.Data? ==> 0 < |r.bytes| <= limit && NulFree(r.bytes) && recv.phase == old(recv.phase) && error == old(error)
      ensures r.Data? ==> Bytes(old(recv.buffer)) + got == r.bytes + Bytes(recv.buffer)
      ensures r.Data? && recv.buffer.Some? ==> |r.bytes| == limit && got == ""
      ensures |Bytes(recv.buffer)| <= |Bytes(old(recv.buffer))|
      ensures !r.Data? ==> got == "" && recv.buffer.None? && old(recv.buffer).None?
      ensures r.Again? ==> recv == old(recv) && error == old(error)
      ensures r.Broke? ==> recv.phase == Failed && error == ReadError
      ensures r.Closed? ==>
              if old(recv.phase).Payload? && !(info.sizes.recv > 0 && recv.payload < info.sizes.recv)
              then recv == old(recv) && error == old(error)
              else recv.phase == Failed && error == ReadEof
    {
      if recv.buffer.Some? {
        ghost var whole := recv.buffer.value;
        var data := ReadBuffered(limit);
        got := "";
        assert whole == whole[..|data|] + whole[|data|..];
        return Data(data), got;
      }
      r := transport.Read(limit);
      got := if r.Data? then r.bytes else "";
      if r.Broke? {
        recv, error := recv.(phase := Failed), ReadError;
      } else if r.Closed? {
        if !recv.phase.Payload? || (info.sizes.recv > 0 && recv.payload < info.sizes.recv) {
          recv, error := recv.(phase := Failed), ReadEof;
        }
      }
    }

    /** Cut the first line off a text and keep the rest; keep all of it when there is none. */
    method CutLine(text: string) returns (line: Option<string>)
      requires text != "" && NulFree(text)
      modifies this`recv
      ensures recv == old(recv).(buffer := recv.buffer)
      ensures recv.buffer.Some? ==> recv.buffer.value != "" && NulFree(recv.buffer.value)
      ensures line.None? ==> recv.buffer == Some(text) && NEWLINE !in text
      ensures line.Some? ==> text == line.value + [NEWLINE] + Bytes(recv.buffer) && NEWLINE !in line.value
    {
      var i := Find(text, NEWLINE);
      if i == |text| {
        recv := recv.(buffer := Some(text));
        return None;
      }
      line := Some(text[..i]);
      assert text == text[..i] + [NEWLINE] + text[i + 1..];
      recv := recv.(buffer := if i + 1 < |text| then Some(text[i + 1..]) else None);
    }

    /** A whole line without its newline, reading once more when none is buffered. */
    method GetLine() returns (line: Option<string>, ghost got: string, end: Ending)
      requires BufferOk() && LinePhase(recv.phase) && BufferFits()
      modifies this`recv, this`error, transport`incoming
      ensures BufferOk() && old(transport.incoming) == got + transport.incoming
      ensures recv == old(recv).(buffer := recv.buffer, phase := recv.phase)
      ensures end.Open? ==> recv.phase == old(recv.phase) && error == old(error)
      ensures line.Some? ==> end.Open? && NEWLINE !in line.value && |Bytes(recv.buffer)| < READ_BUFFER
      ensures line.Some? ==> Bytes(old(recv.buffer)) + got == line.value + [NEWLINE] + Bytes(recv.buffer)
      ensures line.None? ==> NEWLINE !in Bytes(recv.buffer)
      ensures line.None? && end.Open? ==> Bytes(old(recv.buffer)) + got == Bytes(recv.buffer)
      ensures !end.Open? ==> line.None? && got == "" && recv.buffer == old(recv.buffer) && recv.phase == Failed && error == Failure(end)
    {
      var text := recv.buffer;
      got, end := "", Open;
      if text.Some? && Find(text.value, NEWLINE) < |text.value| {
        line := CutLine(text.value);
        return;
      }
      recv := recv.(buffer := None);
      var r;
      r, got := Read(READ_BUFFER);
      if !r.Data? {
        end := EndingOf(r);
        recv := recv.(buffer := text);
        return None, got, end;
      }
      assert Bytes(recv.buffer) == "" && r.bytes + "" == r.bytes && "" + got == got;
      line := CutLine(Bytes(text) + r.bytes);
      if line.Some? {
        RestIsShort(Bytes(text), got, line.value, Bytes(recv.buffer));
      }
    }

    /** GetLine seen from the automaton: a whole line is about to be judged, otherwise all bytes
        read are part of the unfinished line. */
    method ReadLine() returns (line: Option<string>, ghost got: string, end: Ending)
      requires BufferOk() && LinePhase(recv.phase) && BufferFits()
      modifies this`recv, this`error, transport`incoming
      ensures BufferOk() && old(transport.incoming) == got + transport.incoming
      ensures recv == old(recv).(buffer := recv.buffer, phase := recv.phase)
      ensures recv.phase == old(recv.phase) || (line.None? && recv.phase.Failed?)
      ensures line.Some? ==> error == old(error) && end.Open? && |Bytes(recv.buffer)| < READ_BUFFER
      ensures line.None? ==> NEWLINE !in Bytes(recv.buffer)
      ensures !end.Open? ==> recv.phase.Failed?
      ensures Run(env, if line.Some? then LineDone(env, old(Base()), line.value) else Base(), Bytes(recv.buffer)) ==
              Finish(Run(env, Run(env, old(Base()), old(Bytes(recv.buffer))), got), end)
    {
      hide Run, HeaderDone, ChecksumDone, FooterDone, Eof;
      ghost var base, kept := Base(), Bytes(recv.buffer);
      line, got, end := GetLine();
      if line.Some? {
        WholeLine(env, base, kept, got, line.value, Bytes(recv.buffer));
      } else if end.Open? {
        RunAppend(env, base, kept, got);
      } else {
        EndedLine(env, base, kept, end);
      }
    }

    /** Compare bytes with the rest of the password; the byte after it ends the token. */
    method CheckToken(bytes: string) returns (done: bool)
      requires recv.phase.Authenticate? && recv.auth + |bytes| <= |PASSWORD| + 1
      requires recv.auth <= |PASSWORD|
      modifies this`recv, this`error
      ensures recv == old(recv).(auth := recv.auth, phase := recv.phase) && recv.auth <= |PASSWORD|
      ensures done ==> recv.phase.Authenticate? && Base().(phase := Header) == Run(env, old(Base()), bytes)
      ensures !done ==> Base() == Run(env, old(Base()), bytes) && (recv.phase.Authenticate? || recv.phase.Failed?)
    {
      hide Run;
      ghost var start := Base();
      var loc := 0;
      assert bytes[..0] == "" && Run(env, start, "") == start by { RunNothing(env, start); }
      while loc < |bytes|
        invariant 0 <= loc <= |bytes| && recv.auth == start.auth + loc <= |PASSWORD|
        invariant recv == old(recv).(auth := recv.auth) && error == start.error
        invariant start.(auth := recv.auth) == Run(env, start, bytes[..loc])
      {
        RunSnoc(env, start, bytes, loc);
        if recv.auth == |PASSWORD| {
          assert bytes[..loc + 1] == bytes;
          return true;
        }
        if bytes[loc] == PASSWORD[recv.auth] {
          recv := recv.(auth := recv.auth + 1);
        } else {
          recv, error := recv.(phase := Failed), BadAuth;
          RunRest(env, start, bytes, loc + 1);
          return false;
        }
        loc := loc + 1;
      }
      assert bytes[..loc] == bytes;
      done := false;
    }

    /** The authentication token; never reads past it. */
    method ReadAuthenticate() returns (done: bool, ghost got: string, end: Ending)
      requires BufferOk() && recv.phase.Authenticate? && recv.buffer.None? && recv.auth <= |PASSWORD|
      modifies this`recv, this`error, transport`incoming
      ensures BufferOk() && old(transport.incoming) == got + transport.incoming
      ensures recv == old(recv).(auth := recv.auth, phase := recv.phase) && recv.auth <= |PASSWORD|
      ensures done ==> end.Open? && recv.phase.Authenticate? && Base().(phase := Header) == Run(env, old(Base()), got)
      ensures !done ==> Base() == Finish(Run(env, old(Base()), got), end) && (recv.phase.Authenticate? || recv.phase.Failed?)
    {
      hide Run;
      end := Open;
      ghost var base := Base();
      var r;
      r, got := Read(|PASSWORD| + 1 - recv.auth);
      if !r.Data? {
        end := EndingOf(r);
        RunNothing(env, base);
        return false, got, end;
      }
      assert Bytes(recv.buffer) == "" && r.bytes + "" == r.bytes && "" + got == got;
      done := CheckToken(r.bytes);
    }

    /** The key=value loop over the pieces of a header line; it stops at the first error. */
    method ParseFields(parts: seq<string>) returns (s: Scan)
      ensures s == ApplyFields(StartScan(info), commander, parts)
    {
      s := StartScan(info);
      var i := 0;
      while i < |parts| && s.error == NoError
        invariant 0 <= i <= |parts|
        invariant s == ApplyFields(StartScan(info), commander, parts[..i])
      {
        assert parts[..i + 1][..i] == parts[..i];
        s := ApplyField(s, commander, parts[i]);
        i := i + 1;
      }
      ErrorSticks(StartScan(info), commander, parts, i);
    }

    /** Take over what a parsed header says: sizes, names, and the model of a path. */
    method InstallHeader(header: Info, m: Option<Markov.Model>)
      requires m.Some? ==> Markov.Sound(m.value)
      modifies this`info, this`mmodel
      ensures Base() == Install(old(Base()), header, m)
      ensures m.None? ==> mmodel == old(mmodel)
      ensures m.Some? ==> mmodel != null && fresh(mmodel) && mmodel.Valid() && mmodel.State() == Markov.Begin(mmodel.model)
    {
      info := header;
      if m.Some? {
        mmodel := new MarkovModel(m.value);
      }
    }

    /** A refused header or model ends the reading; the server answers with the error, the
        commander has nothing more to send. */
    method Refuse(e: StreamError)
      modifies this`recv, this`error, this`send, this`cue
      ensures recv == old(recv).(phase := Failed) && error == e
      ensures cue == (if commander then Quit else Respond) && send == old(send).(state := CueState(cue))
    {
      recv, error := recv.(phase := Failed), e;
      if commander {
        send, cue := send.(state := Sent), Quit;
      } else {
        send, cue := send.(state := Response), Respond;
      }
    }

    /** Parse and judge a header line. */
    method JudgeHeader(line: string) returns (done: bool)
      requires EnvOk(env) && recv.phase.Header? && recv.blob.None? && (mmodel != null <==> commander) && cue == Nothing
      modifies this`recv, this`error, this`info, this`mmodel, this`send, this`cue
      ensures recv == old(recv).(phase := recv.phase)
      ensures mmodel == old(mmodel) ||
              (old(mmodel) == null && fresh(mmodel) && mmodel.State() == Markov.Begin(mmodel.model) && mmodel.Valid() && !commander)
      ensures done ==> recv == old(recv) && cue == old(cue) && send == old(send)
      ensures done ==> Norm(Base().(phase := if commander then Payload else Model)) == HeaderDone(env, old(Base()), line)
      ensures done && mmodel == null ==> info.modelSize > 0
      ensures !done ==> recv.phase.Failed? && Base() == HeaderDone(env, old(Base()), line)
      ensures !done ==> send == old(send).(state := CueState(cue)) && cue == (if commander then Quit else Respond)
    {
      var s := ParseFields(Split(CString(line), ' '));
      var verdict := Conclude(env, s, commander);
      VerdictFacts(env, s, commander);
      InstallHeader(s.info, verdict.1);
      done := verdict.0 == NoError;
      if !done {
        Refuse(verdict.0);
      }
    }

    method ReadHeader() returns (done: bool, ghost got: string, end: Ending)
      requires EnvOk(env) && BufferOk() && BufferFits()
      requires recv.phase.Header? && recv.blob.None? && (mmodel != null <==> commander) && cue == Nothing
      modifies this`recv, this`error, this`info, this`mmodel, this`send, this`cue, transport`incoming
      ensures BufferOk() && old(transport.incoming) == got + transport.incoming
      ensures recv == old(recv).(buffer := recv.buffer, phase := recv.phase) && (recv.phase.Header? || recv.phase.Failed?)
      ensures mmodel == old(mmodel) ||
              (old(mmodel) == null && fresh(mmodel) && mmodel.State() == Markov.Begin(mmodel.model) && mmodel.Valid() && !commander)
      ensures done ==> end.Open? && recv.phase.Header? && |Bytes(recv.buffer)| < READ_BUFFER
      ensures done ==> cue == Nothing && (mmodel == null ==> info.modelSize > 0)
      ensures done ==> ViewAs(if commander then Payload else Model) == Run(env, old(View()), got)
      ensures !done ==> View() == Finish(Run(env, old(View()), got), end)
      ensures !done && recv.phase.Header? ==> NEWLINE !in Bytes(recv.buffer) && mmodel == old(mmodel) && cue == old(cue)
      ensures !end.Open? ==> recv.phase.Failed?
      ensures send == if cue == Nothing then old(send) else old(send).(state := CueState(cue))
      ensures cue.Respond? ==> !commander
    {
      hide HeaderDone, Run, Norm, EnvOk;
      NormStays(Base());
      var line;
      line, got, end := ReadLine();
      done := false;
      if line.Some? {
        done := JudgeHeader(line.value);
      }
      NormStays(Base());
    }

    /** Build the model from its complete text. */
    method BuildModel(text: string) returns (done: bool)
      requires EnvOk(env) && recv.phase.Model? && !commander && mmodel == null && cue == Nothing
      modifies this`recv, this`error, this`mmodel, this`send, this`cue
      ensures recv == old(recv).(blob := None, phase := recv.phase)
      ensures done ==> recv.phase.Model? && cue == Nothing && error == old(error) && send == old(send)
      ensures done ==> mmodel != null && fresh(mmodel) && mmodel.Valid() && mmodel.State() == Markov.Begin(mmodel.model)
      ensures done ==> Norm(Base()) == ModelDone(env, old(Base()), text)
      ensures !done ==> mmodel == null && recv.phase.Failed? && Base() == ModelDone(env, old(Base()), text)
      ensures !done ==> send == old(send).(state := CueState(cue)) && cue == Respond
    {
      hide EnvOk, EnterPayload;
      recv := recv.(blob := None);
      var m := env.fromText(text, info.modelSeed);
      done := m.Some?;
      if done {
        LoadedSound(env, text, info.modelSeed);
        mmodel := new MarkovModel(m.value);
      } else {
        Refuse(BadModel);
      }
    }

    /** Model text until its announced size is reached, then the model itself. */
    method ReadModel() returns (done: bool, ghost got: string, end: Ending)
      requires EnvOk(env) && BufferOk() && |Bytes(recv.buffer)| < READ_BUFFER && cue == Nothing
      requires recv.phase.Model? && !commander && mmodel == null && |Bytes(recv.blob)| < info.modelSize
      modifies this`recv, this`error, this`mmodel, this`send, this`cue, transport`incoming
      ensures BufferOk() && old(transport.incoming) == got + transport.incoming
      ensures recv == old(recv).(buffer := recv.buffer, phase := recv.phase, blob := recv.blob)
      ensures |Bytes(recv.buffer)| < READ_BUFFER && (recv.phase.Model? || recv.phase.Failed?)
      ensures done ==> end.Open? && recv.phase.Model? && recv.blob.None? && cue == Nothing && error == old(error)
      ensures done ==> mmodel != null && fresh(mmodel) && mmodel.Valid() && mmodel.State() == Markov.Begin(mmodel.model)
      ensures !done ==> mmodel == null
      ensures !end.Open? ==> recv.phase.Failed?
      ensures done ==> View() == Run(env, old(View()), got)
      ensures !done ==> View() == Finish(Run(env, old(View()), got), end)
      ensures !done && recv.phase.Model? ==> recv.buffer.None? && |Bytes(recv.blob)| < info.modelSize && cue == Nothing
      ensures send == if cue == Nothing then old(send) else old(send).(state := CueState(cue))
    {
      hide Run, EnvOk, EnterPayload, EnterChecksum, ModelDone;
      ghost var base, kept := Base(), Bytes(recv.buffer);
      var have := Bytes(recv.blob);
      var remaining := info.modelSize - |have|;
      end := Open;
      var r;
      r, got := Read(if remaining < READ_BUFFER then remaining else READ_BUFFER);
      if !r.Data? {
        end := EndingOf(r);
        RunNothing(env, base);
        RunNothing(env, Base());
        return false, got, end;
      }
      ModelPiece(env, base, kept, got, r.bytes, Bytes(recv.buffer));
      if |have| + |r.bytes| < info.modelSize {
        recv := recv.(blob := Some(have + r.bytes));
        return false, got, end;
      }
      done := BuildModel(have + r.bytes);
    }

    /** Count payload bytes and, when their total is known, feed them to the checksum. */
    method CountPayload(bytes: string) returns (complete: bool)
      modifies this`recv
      ensures recv == old(recv).(payload := recv.payload, digested := recv.digested)
      ensures Base() == TakePayload(old(Base()), bytes) && complete == PayloadComplete(Base())
    {
      recv := recv.(payload := recv.payload + |bytes|);
      if info.sizes.recv > 0 {
        recv := recv.(digested := recv.digested + bytes);
      }
      complete := info.sizes.recv > 0 && recv.payload >= info.sizes.recv;
    }

    /** One read of payload bytes, never past the requested size. */
    method ReadPiece() returns (done: bool, ghost got: string, end: Ending)
      requires BufferOk() && recv.phase.Payload? && |Bytes(recv.buffer)| < READ_BUFFER
      requires if info.sizes.recv > 0 then recv.payload < info.sizes.recv else !info.sizes.recvZero
      modifies this`recv, this`error, transport`incoming
      ensures BufferOk() && old(transport.incoming) == got + transport.incoming
      ensures recv == old(recv).(buffer := recv.buffer, phase := recv.phase, payload := recv.payload, digested := recv.digested)
      ensures |Bytes(recv.buffer)| < READ_BUFFER && (recv.phase.Payload? || recv.phase.Failed?)
      ensures done ==> recv.phase.Payload? && (!end.Open? ==> info.sizes.recv == 0)
      ensures !end.Open? ==> done || recv.phase.Failed?
      ensures Run(env, if done then EnterChecksum(Base()) else Base(), Bytes(recv.buffer)) ==
              Finish(Run(env, Run(env, old(Base()), old(Bytes(recv.buffer))), got), end)
      ensures !done && recv.phase.Payload? ==> recv.buffer.None? && !PayloadComplete(Base())
    {
      hide Run, EnterChecksum;
      ghost var base, kept := Base(), Bytes(recv.buffer);
      end := Open;
      var remaining := info.sizes.recv - recv.payload;
      var r;
      r, got := Read(if info.sizes.recv > 0 && remaining < READ_BUFFER then remaining else READ_BUFFER);
      if r.Data? {
        PayloadPiece(env, base, kept, got, r.bytes, Bytes(recv.buffer));
        done := CountPayload(r.bytes);
      } else {
        end := EndingOf(r);
        RunNothing(env, base);
        RunNothing(env, Base());
        RunNothing(env, EnterChecksum(base));
        done := r.Closed? && info.sizes.recv == 0;
      }
    }

    /** Payload, at most one read per event; none at all when zero bytes were requested. */
    method ReadPayload() returns (done: bool, ghost got: string, end: Ending)
      requires BufferOk() && recv.phase.Payload? && |Bytes(recv.buffer)| < READ_BUFFER
      requires info.sizes.recv > 0 ==> recv.payload < info.sizes.recv
      modifies this`recv, this`error, transport`incoming
      ensures BufferOk() && old(transport.incoming) == got + transport.incoming
      ensures recv == old(recv).(buffer := recv.buffer, phase := recv.phase, payload := recv.payload, digested := recv.digested)
      ensures |Bytes(recv.buffer)| < READ_BUFFER && (recv.phase.Payload? || recv.phase.Failed?)
      ensures done ==> recv.phase.Payload? && (!end.Open? ==> info.sizes.recv == 0 && !info.sizes.recvZero)
      ensures !end.Open? ==> done || recv.phase.Failed?
      ensures (if done then ViewAs(Checksum) else View()) == Finish(Run(env, old(View()), got), end)
      ensures !done && recv.phase.Payload? ==>
              recv.buffer.None? && Norm(Base()) == Base() && (info.sizes.recv > 0 ==> recv.payload < info.sizes.recv)
    {
      hide Run, EnterChecksum;
      ghost var base := Base();
      EnterTwice(base);
      if info.sizes.recv == 0 && info.sizes.recvZero {
        RunNothing(env, View());
        return true, "", Open;
      }
      done, got, end := ReadPiece();
      EnterTwice(Base());
    }

    /** The checksum line; skipped when the payload size is unknown or zero. */
    method ReadChecksum() returns (done: bool, ghost got: string, end: Ending)
      requires BufferOk() && BufferFits() && recv.phase.Checksum?
      modifies this`recv, this`error, transport`incoming
      ensures BufferOk() && old(transport.incoming) == got + transport.incoming
      ensures recv == old(recv).(buffer := recv.buffer, phase := recv.phase, checksumSeen := recv.checksumSeen)
      ensures recv.phase.Checksum? || recv.phase.Failed?
      ensures recv.phase.Failed? || NEWLINE !in Bytes(recv.buffer) || |Bytes(recv.buffer)| < READ_BUFFER
      ensures done ==> recv.phase.Checksum? && end.Open?
      ensures !end.Open? ==> recv.phase.Failed?
      ensures (if done then ViewAs(Footer) else View()) == Finish(Run(env, old(View()), got), end)
      ensures !done && recv.phase.Checksum? ==> NEWLINE !in Bytes(recv.buffer) && info.sizes.recv > 0
      ensures info.sizes.recv == 0 ==> done && got == "" && recv == old(recv)
    {
      hide Run, EnterFooter, ChecksumMatches;
      FooterTwice(Base());
      if info.sizes.recv == 0 {
        RunNothing(env, View());
        return true, "", Open;
      }
      var line;
      line, got, end := ReadLine();
      done := false;
      if line.Some? {
        recv := recv.(checksumSeen := true);
        done := ChecksumMatches(env, recv.digested, line.value);
        if !done {
          recv, error := recv.(phase := Failed), BadChecksum;
        }
      }
      FooterTwice(Base());
    }

    /** The footer line; skipped when the payload size is unknown. */
    method ReadFooter() returns (done: bool, ghost got: string, end: Ending)
      requires BufferOk() && BufferFits() && recv.phase.Footer?
      modifies this`recv, this`error, transport`incoming
      ensures BufferOk() && old(transport.incoming) == got + transport.incoming
      ensures recv == old(recv).(buffer := recv.buffer, phase := recv.phase)
      ensures recv.phase.Footer? || recv.phase.Failed?
      ensures recv.phase.Failed? || NEWLINE !in Bytes(recv.buffer) || |Bytes(recv.buffer)| < READ_BUFFER
      ensures done ==> recv.phase.Footer? && end.Open?
      ensures !end.Open? ==> recv.phase.Failed?
      ensures (if done then ViewAs(Success) else View()) == Finish(Run(env, old(View()), got), end)
      ensures !done && recv.phase.Footer? ==> NEWLINE !in Bytes(recv.buffer) && Norm(Base()) == Base()
      ensures info.sizes.recv == 0 && !info.sizes.recvZero ==> done && got == "" && recv == old(recv)
    {
      hide Run, CaseEqN;
      if info.sizes.recv == 0 && !info.sizes.recvZero {
        RunNothing(env, View());
        return true, "", Open;
      }
      var line;
      line, got, end := ReadLine();
      done := false;
      if line.Some? {
        done := CaseEqN(CString(line.value), "FIN", 3);
        if !done {
          recv, error := recv.(phase := Failed), BadFooter;
        }
      }
    }

    // ---- One readable event ----

    /** Between two stages of an event: settled, or the next stage p was just reached. */
    ghost predicate At(p: Phase)
      reads this`recv, this`info, this`mmodel
    {
      Settled() || recv.phase == p
    }

    method PassAuthenticate() returns (ghost got: string, end: Ending)
      requires Valid() && Settled()
      modifies this`recv, this`error, transport`incoming
      ensures Valid() && At(Header) && old(transport.incoming) == got + transport.incoming
      ensures View() == Finish(Run(env, old(View()), got), end)
      ensures !end.Open? ==> Stopped(recv.phase)
    {
      hide Run, EnvOk;
      got, end := "", Open;
      RunNothing(env, Base());
      RunNothing(env, View());
      if recv.phase.Authenticate? {
        var done;
        done, got, end := ReadAuthenticate();
        RunNothing(env, Base());
        RunNothing(env, Base().(phase := Header));
        if done {
          recv := recv.(phase := Header);
        }
      }
    }

    method PassHeader() returns (ghost got: string, end: Ending)
      requires Valid() && At(Header)
      modifies this`recv, this`error, this`info, this`mmodel, this`send, this`cue, transport`incoming
      ensures Valid() && At(if commander then Payload else Model) && old(transport.incoming) == got + transport.incoming
      ensures mmodel == old(mmodel) || (old(mmodel) == null && fresh(mmodel) && mmodel.State() == Markov.Begin(mmodel.model))
      ensures View() == Finish(Run(env, old(View()), got), end)
      ensures !end.Open? ==> Stopped(recv.phase)
      ensures old(Stopped(recv.phase)) ==> got == "" && end.Open? && recv.phase == old(recv.phase)
      ensures cue == old(cue) || old(cue) == Nothing
      ensures send == if cue == old(cue) then old(send) else old(send).(state := CueState(cue))
    {
      hide Run, EnvOk, Norm;
      got, end := "", Open;
      NormStays(Base());
      RunNothing(env, View());
      if recv.phase.Header? {
        var done;
        done, got, end := ReadHeader();
        NormStays(Base());
        if done {
          recv := recv.(phase := if commander then Payload else Model);
        }
      }
    }

    /** The model is there: answer, and receive the payload. */
    method AcceptCommand()
      requires recv.phase.Model? && cue == Nothing && mmodel != null && recv.blob.None?
      modifies this`recv, this`send, this`cue
      ensures recv == old(recv).(phase := Payload) && cue == Respond && send == old(send).(state := Response)
      ensures View() == old(View())
    {
      hide Run;
      send, recv, cue := send.(state := Response), recv.(phase := Payload), Respond;
    }

    method PassModel() returns (ghost got: string, end: Ending)
      requires Valid() && At(if commander then Payload else Model)
      modifies this`recv, this`error, this`mmodel, this`send, this`cue, transport`incoming
      ensures Valid() && At(Payload) && old(transport.incoming) == got + transport.incoming
      ensures mmodel == old(mmodel) || (old(mmodel) == null && fresh(mmodel) && mmodel.State() == Markov.Begin(mmodel.model))
      ensures View() == Finish(Run(env, old(View()), got), end)
      ensures !end.Open? ==> Stopped(recv.phase)
      ensures old(Stopped(recv.phase)) ==> got == "" && end.Open? && recv.phase == old(recv.phase)
      ensures cue == old(cue) || old(cue) == Nothing
      ensures send == if cue == old(cue) then old(send) else old(send).(state := CueState(cue))
    {
      hide Run, EnvOk, ModelDone;
      got, end := "", Open;
      RunNothing(env, View());
      if recv.phase.Model? {
        var done := mmodel != null;
        if !done {
          done, got, end := ReadModel();
        }
        if done {
          AcceptCommand();
        }
      }
    }

    method PassPayload() returns (ghost got: string, end: Ending)
      requires Valid() && At(Payload)
      modifies this`recv, this`error, transport`incoming
      ensures Valid() && At(Checksum) && old(transport.incoming) == got + transport.incoming
      ensures View() == Finish(Run(env, old(View()), got), end)
      ensures !end.Open? ==> Stopped(recv.phase) || (recv.phase.Checksum? && info.sizes.recv == 0 && !info.sizes.recvZero)
      ensures old(Stopped(recv.phase)) ==> got == "" && end.Open? && recv.phase == old(recv.phase)
    {
      hide Run, EnvOk;
      got, end := "", Open;
      RunNothing(env, View());
      if recv.phase.Payload? {
        var done;
        done, got, end := ReadPayload();
        if done {
          recv := recv.(phase := Checksum);
        }
      }
    }

    method PassChecksum() returns (ghost got: string, end: Ending)
      requires Valid() && At(Checksum)
      modifies this`recv, this`error, transport`incoming
      ensures Valid() && At(Footer) && old(transport.incoming) == got + transport.incoming
      ensures View() == Finish(Run(env, old(View()), got), end)
      ensures !end.Open? ==> Stopped(recv.phase)
      ensures old(Stopped(recv.phase)) ==> got == "" && end.Open? && recv.phase == old(recv.phase)
      ensures old(recv.phase.Checksum?) && info.sizes.recv == 0 ==> got == "" && end.Open? && recv.phase.Footer?
    {
      hide Run, EnvOk;
      got, end := "", Open;
      RunNothing(env, View());
      if recv.phase.Checksum? {
        var done;
        done, got, end := ReadChecksum();
        if done {
          recv := recv.(phase := Footer);
        }
      }
    }

    method PassFooter() returns (ghost got: string, end: Ending)
      requires Valid() && At(Footer)
      modifies this`recv, this`error, transport`incoming
      ensures Valid() && Settled() && old(transport.incoming) == got + transport.incoming
      ensures View() == Finish(Run(env, old(View()), got), end)
      ensures old(Stopped(recv.phase)) || (old(recv.phase.Footer?) && info.sizes.recv == 0 && !info.sizes.recvZero) ==>
              got == "" && end.Open?
    {
      hide Run, EnvOk;
      got, end := "", Open;
      RunNothing(env, View());
      if recv.phase.Footer? {
        var done;
        done, got, end := ReadFooter();
        if done {
          recv := recv.(phase := Success);
        }
      }
    }

    /** Authentication, header and model. */
    method ReadPrelude() returns (ghost got: string, end: Ending)
      requires Valid() && Settled()
      modifies this`recv, this`error, this`info, this`mmodel, this`send, this`cue, transport`incoming
      ensures Valid() && At(Payload) && old(transport.incoming) == got + transport.incoming
      ensures mmodel == old(mmodel) || (old(mmodel) == null && fresh(mmodel) && mmodel.State() == Markov.Begin(mmodel.model))
      ensures View() == Finish(Run(env, old(View()), got), end)
      ensures !end.Open? ==> Stopped(recv.phase)
      ensures cue == old(cue) || old(cue) == Nothing
      ensures send == if cue == old(cue) then old(send) else old(send).(state := CueState(cue))
    {
      hide Run, RecvValid, SendValid, Settled, View, Eof;
      ghost var start := View();
      ghost var g;
      var e;
      got, end := PassAuthenticate();
      g, e := PassHeader();
      Onward(env, start, got, end, g, e);
      got, end := got + g, if end.Open? then e else end;
      g, e := PassModel();
      Onward(env, start, got, end, g, e);
      got, end := got + g, if end.Open? then e else end;
    }

    /** Payload, checksum and footer. */
    method ReadBody() returns (ghost got: string, end: Ending)
      requires Valid() && At(Payload)
      modifies this`recv, this`error, transport`incoming
      ensures Valid() && Settled() && old(transport.incoming) == got + transport.incoming
      ensures View() == Finish(Run(env, old(View()), got), end)
      ensures old(Stopped(recv.phase)) ==> got == "" && end.Open?
    {
      hide Run, RecvValid, SendValid, Settled, View, Eof;
      ghost var start := View();
      ghost var g;
      var e;
      got, end := PassPayload();
      g, e := PassChecksum();
      Onward(env, start, got, end, g, e);
      got, end := got + g, if end.Open? then e else end;
      g, e := PassFooter();
      Onward(env, start, got, end, g, e);
      got, end := got + g, if end.Open? then e else end;
    }

    /** What settled fields say: nothing is buffered but an unfinished line. */
    lemma SettledView()
      requires RecvValid() && Settled()
      ensures View() == State().rx
    {
      var rx := Base();
      if LinePhase(recv.phase) {
        RunText(env, rx, Bytes(recv.buffer));
      } else if Stopped(recv.phase) {
        RunStopped(env, rx, Bytes(recv.buffer));
      }
    }

    /** _tgenstream_onReadable: however the bytes were cut into pieces, the state is the automaton's
        state on the bytes themselves, and no complete line and no payload byte is left behind. */
    method OnReadable() returns (ghost got: string, end: Ending)
      requires Valid() && Settled()
      modifies this`recv, this`error, this`info, this`mmodel, this`send, this`cue, transport`incoming
      ensures Valid() && Settled() && old(transport.incoming) == got + transport.incoming
      ensures mmodel == old(mmodel) || (old(mmodel) == null && fresh(mmodel))
      ensures State() == Absorb(old(State()), Finish(Run(env, old(State()).rx, got), end))
    {
      hide Run, RecvValid, SendValid, Settled, View, Eof;
      SettledView();
      ghost var start := View();
      ghost var g;
      var e;
      got, end := ReadPrelude();
      g, e := ReadBody();
      Onward(env, start, got, end, g, e);
      got, end := got + g, if end.Open? then e else end;
      SettledView();
    }

    // ---- Writing ----

    /** The fields of the sending half. */
    ghost function Out(): Tx
      reads this, mmodel
    {
      Tx(send.state, Unwritten(send.buffer, send.offset), send.payload, send.digested, send.expectSend, send.expectRecv, send.barrier,
         if mmodel == null then None else Some(mmodel.State()))
    }

    /** The whole endpoint between events: an unfinished line is what the buffer keeps. */
    ghost function State(): End
      reads this, mmodel
    {
      End(me, Base().(line := if LinePhase(recv.phase) then Bytes(recv.buffer) else ""), Out())
    }

    /** One write of the unsent rest of the buffer, which is released once it is empty. */
    method FlushOut() returns (n: nat, a: Answer)
      requires SendOk()
      modifies this`send, this`error, transport`outgoing
      ensures SendOk() && send == old(send).(state := send.state, buffer := send.buffer, offset := send.offset)
      ensures (send.state == old(send.state) || send.state.Broken?) && (send.buffer.None? ==> error == old(error))
      ensures var f := Sender.FlushOut(old(State()), a);
              State() == f.end && transport.outgoing == old(transport.outgoing) + f.wrote && n == |f.wrote| &&
              (send.buffer.None? <==> f.end.tx.out == "")
    {
      n, a := 0, Busy;
      if send.buffer.None? {
        return;
      }
      var text := send.buffer.value;
      a := transport.Write(text[send.offset..]);
      match a {
        case Busy =>
        case HungUp => send, error := send.(state := Broken), WriteEof;
        case Fault => send, error := send.(state := Broken), WriteError;
        case Accepted(k) =>
          n := k;
          assert text[send.offset..][k..] == text[send.offset + k..];
          if send.offset + k >= |text| {
            send := send.(buffer := None, offset := 0);
          } else {
            send := send.(offset := send.offset + k);
          }
      }
    }

    /** Fill the buffer unless it still holds something, and write. */
    method Emit(text: string) returns (a: Answer)
      requires SendOk() && text != ""
      modifies this`send, this`error, transport`outgoing
      ensures SendOk() && (send.state == old(send.state) || send.state.Broken?) && (send.buffer.None? ==> error == old(error))
      ensures var f := Push(old(State()), text, a);
              State() == f.end && transport.outgoing == old(transport.outgoing) + f.wrote && (send.buffer.None? <==> f.end.tx.out == "")
    {
      if send.buffer.None? {
        send := send.(buffer := Some(text), offset := 0);
      }
      var _, b := FlushOut();
      a := b;
    }

    method WriteCommand() returns (a: Answer)
      requires Valid() && Settled()
      modifies this`send, this`error, this`recv, transport`outgoing
      ensures Valid() && Settled()
      ensures var f := StageCommand(old(State()), a); State() == f.end && transport.outgoing == old(transport.outgoing) + f.wrote
    {
      hide EnvOk, Push, Sender.FlushOut, Unwritten, CommandText;
      a := Busy;
      if send.state.Command? {
        CommandNotEmpty(me.(sizes := info.sizes));
        a := Emit(CommandText(me.(sizes := info.sizes)));
        if send.buffer.None? {
          recv, send := recv.(phase := Authenticate), send.(state := SendPayload);
        }
      }
    }

    method WriteResponse() returns (a: Answer)
      requires SendValid()
      modifies this`send, this`error, transport`outgoing
      ensures SendValid()
      ensures var f := StageResponse(old(State()), a); State() == f.end && transport.outgoing == old(transport.outgoing) + f.wrote
    {
      hide EnvOk, Push, Sender.FlushOut, Unwritten, ResponseText;
      a := Busy;
      if send.state.Response? {
        ResponseNotEmpty(me.host, error);
        a := Emit(ResponseText(me.host, error));
        if send.buffer.None? {
          send := send.(state := if error == NoError then SendPayload else Sent);
        }
      }
    }

    method WriteChecksum() returns (a: Answer)
      requires SendValid()
      modifies this`send, this`error, transport`outgoing
      ensures SendValid()
      ensures var f := StageChecksum(env, old(State()), a); State() == f.end && transport.outgoing == old(transport.outgoing) + f.wrote
    {
      hide EnvOk, Push, Sender.FlushOut, Unwritten, ChecksumText;
      a := Busy;
      if send.state.SendChecksum? {
        if info.sizes.send == 0 {
          send := send.(state := SendFooter);
        } else {
          ChecksumNotEmpty(env, send.digested);
          a := Emit(ChecksumText(env, send.digested));
          if send.buffer.None? {
            send := send.(state := SendFooter);
          }
        }
      }
    }

    method WriteFooter() returns (a: Answer)
      requires SendValid()
      modifies this`send, this`error, transport`outgoing
      ensures SendValid()
      ensures var f := StageFooter(old(State()), a); State() == f.end && transport.outgoing == old(transport.outgoing) + f.wrote
    {
      hide EnvOk, Push, Sender.FlushOut, Unwritten;
      a := Busy;
      if send.state.SendFooter? {
        if info.sizes.send == 0 && !info.sizes.sendZero {
          send := send.(state := Flush);
        } else if recv.phase.Footer? || recv.phase.Success? {
          a := Emit(FOOTER);
          if send.buffer.None? {
            send := send.(state := Flush);
          }
        }
      }
    }

    method WriteRest() returns (a: Answer)
      requires SendValid()
      modifies this`send, this`error, transport`outgoing
      ensures SendValid()
      ensures var f := StageFlush(old(State()), a); State() == f.end && transport.outgoing == old(transport.outgoing) + f.wrote
    {
      hide EnvOk, Push, Sender.FlushOut, Unwritten;
      a := Busy;
      if send.state.Flush? {
        var _, b := FlushOut();
        a := b;
        if send.buffer.None? {
          send := send.(state := Sent);
        }
      }
    }

    /** What one observation does to the expected bytes and to the batch. */
    method CountPacket(b: Batch, obs: Markov.Observation, delay: nat, now: nat) returns (next: Batch)
      requires mmodel != null && mmodel.Valid() && !b.stop && b.delay <= AT_ONCE
      modifies this`send, mmodel`currentState, mmodel`foundEnd
      ensures mmodel.Valid() && next.walk == mmodel.State()
      ensures next == Account(mmodel.model, commander, info.sizes.send > 0, b, Markov.Emitted(obs, delay, old(mmodel.State())))
      ensures send == old(send).(expectSend := old(send).expectSend + PACKET * (next.sends - b.sends),
                                 expectRecv := old(send).expectRecv + PACKET * (next.receives - b.receives),
                                 barrier := if next.delay > AT_ONCE then now + next.delay else old(send).barrier)
    {
      next := b.(walk := mmodel.State());
      if obs == Other(commander) {
        send := send.(expectRecv := send.expectRecv + PACKET);
        next := next.(receives := next.receives + 1, delay := next.delay + delay);
      } else if obs == Own(commander) {
        send := send.(expectSend := send.expectSend + PACKET);
        next := next.(size := next.size + PACKET, sends := next.sends + 1, delay := delay);
      } else if info.sizes.send > 0 {
        mmodel.Reset();
        next := next.(walk := mmodel.State());
      } else {
        return next.(stop := true);
      }
      if next.delay > AT_ONCE {
        send := send.(barrier := now + next.delay);
        next := next.(stop := true);
      }
    }

    /** The packet loop. `steps` bounds its iterations; PacketLoop (module Packets) gives one for
        every model that keeps coming back to this end's own packets. */
    method GatherPackets(limit: nat, now: nat, ghost steps: nat) returns (b: Batch)
      requires mmodel != null && mmodel.Valid()
      requires Complete(Gather(mmodel.model, commander, info.sizes.send > 0, limit, NewBatch(mmodel.State()), steps), limit)
      modifies this`send, mmodel
      ensures mmodel.Valid() && b.walk == mmodel.State()
      ensures b == Gather(mmodel.model, commander, info.sizes.send > 0, limit, NewBatch(old(mmodel.State())), steps)
      ensures send == old(send).(expectSend := old(send).expectSend + PACKET * b.sends,
                                 expectRecv := old(send).expectRecv + PACKET * b.receives,
                                 barrier := if b.delay > AT_ONCE then now + b.delay else old(send).barrier)
    {
      hide Markov.Next, Markov.Sound, Account;
      b := NewBatch(mmodel.State());
      ghost var left := steps;
      while b.size < limit && !b.stop
        invariant mmodel.Valid() && b.walk == mmodel.State() && (!b.stop ==> b.delay <= AT_ONCE)
        invariant Gather(mmodel.model, commander, info.sizes.send > 0, limit, NewBatch(old(mmodel.State())), steps) ==
                  Gather(mmodel.model, commander, info.sizes.send > 0, limit, b, left)
        invariant send == old(send).(expectSend := old(send).expectSend + PACKET * b.sends,
                                     expectRecv := old(send).expectRecv + PACKET * b.receives,
                                     barrier := if b.delay > AT_ONCE then now + b.delay else old(send).barrier)
        decreases left
      {
        ghost var before := b;
        var obs, delay := mmodel.GetNextObservation();
        b := CountPacket(b, obs, delay, now);
        PacedStops(mmodel.model, commander, info.sizes.send > 0, before);
        left := left - 1;
      }
    }

    /** The packet loop ends within so many iterations, whatever its size limit. */
    ghost predicate Enough(steps: nat)
      reads this`mmodel, this`info, mmodel
    {
      mmodel != null ==>
        Complete(Gather(mmodel.model, commander, info.sizes.send > 0, WRITE_BUFFER, NewBatch(mmodel.State()), steps), WRITE_BUFFER)
    }

    method FlushPayload() returns (a: Answer)
      requires SendOk()
      modifies this`send, this`error, transport`outgoing
      ensures SendOk() && (send.state == old(send.state) || send.state.Broken?)
      ensures send.buffer.None? <==> Out().out == ""
      ensures var f := Sender.FlushPayload(old(State()), a);
              State() == f.end && transport.outgoing == old(transport.outgoing) + f.wrote
    {
      var n;
      n, a := FlushOut();
      send := send.(payload := send.payload + n);
    }

    method IsDoneSending() returns (done: bool)
      requires mmodel != null
      ensures done == DoneSending(State())
    {
      if info.sizes.send > 0 {
        done := send.payload >= info.sizes.send;
      } else {
        done := info.sizes.sendZero || mmodel.foundEnd;
      }
    }

    /** How many payload bytes fit the next batch. */
    method BatchRoom() returns (limit: nat)
      ensures limit == BatchLimit(State()) && limit <= WRITE_BUFFER
    {
      limit := WRITE_BUFFER;
      if info.sizes.send > 0 && info.sizes.send - send.payload < WRITE_BUFFER {
        limit := if info.sizes.send < send.payload then 0 else info.sizes.send - send.payload;
      }
    }

    /** A new batch: run the packet loop and fill the buffer with one repeated letter. */
    method FillBatch(now: nat, ghost steps: nat) returns (letter: char)
      requires mmodel != null && mmodel.Valid() && Enough(steps) && send.buffer.None? && SendOk()
      modifies this`send, mmodel
      ensures mmodel.Valid() && SendOk() && send.state == old(send.state)
      ensures State() == LoadBatch(old(State()), NextBatch(old(State()), steps), Draw(steps, letter, now))
    {
      hide Gather, Markov.Sound, Complete, Letters;
      ghost var start := State();
      var sized := info.sizes.send > 0;
      var limit := BatchRoom();
      GatherSmaller(mmodel.model, commander, sized, limit, WRITE_BUFFER, NewBatch(mmodel.State()), steps);
      var batch := GatherPackets(limit, now, steps);
      assert batch == NextBatch(start, steps);
      letter :| 'a' <= letter <= 'z';
      var text := Letters(letter, if sized && limit < batch.size then limit else batch.size);
      assert text[0..] == text && send.digested + "" == send.digested;
      if |text| > 0 {
        send := send.(buffer := Some(text), digested := if sized then send.digested + text else send.digested);
      }
      assert Out() == LoadBatch(start, batch, Draw(steps, letter, now)).tx;
    }

    method WritePayload(now: nat, ghost steps: nat) returns (a: Answer, b: Answer, letter: char)
      requires RecvValid() && SendValid() && Enough(steps)
      modifies this`send, this`error, transport`outgoing, mmodel
      ensures RecvValid() && SendValid()
      ensures var f := StagePayload(old(State()), a, b, Draw(steps, letter, now));
              State() == f.end && transport.outgoing == old(transport.outgoing) + f.wrote
    {
      hide EnvOk, Gather, BufferOk, BufferFits, Sender.FlushPayload, LoadBatch, Unwritten, NextBatch;
      a, b, letter := Busy, Busy, 'a';
      if !send.state.SendPayload? {
        return;
      }
      if mmodel == null {
        send, error := send.(state := Broken), BadModel;
        return;
      }
      a := FlushPayload();
      if send.buffer.Some? {
        return;
      }
      var done := IsDoneSending();
      if done {
        send := send.(state := SendChecksum);
        return;
      }
      letter := FillBatch(now, steps);
      b := FlushPayload();
    }

    method ClearBarrier()
      requires SendValid()
      modifies this`send
      ensures SendValid() && State() == WithTx(old(State()), old(State()).tx.(barrier := 0))
    {
      send := send.(barrier := 0);
    }

    method WriteMiddle(now: nat, ghost steps: nat) returns (response: Answer, leftover: Answer, batch: Answer, letter: char)
      requires RecvValid() && SendValid() && Enough(steps)
      modifies this`send, this`error, transport`outgoing, mmodel
      ensures RecvValid() && SendValid()
      ensures var f := Middle(old(State()), Replies(Busy, response, leftover, batch, Busy, Busy, Busy), Draw(steps, letter, now));
              State() == f.end && transport.outgoing == old(transport.outgoing) + f.wrote
    {
      hide RecvValid, SendValid, State, Enough, StageResponse, StagePayload;
      response := WriteResponse();
      leftover, batch, letter := WritePayload(now, steps);
    }

    method WriteClosing() returns (checksum: Answer, footer: Answer, rest: Answer)
      requires SendValid()
      modifies this`send, this`error, transport`outgoing
      ensures SendValid()
      ensures var f := Closing(env, old(State()), Replies(Busy, Busy, Busy, Busy, checksum, footer, rest));
              State() == f.end && transport.outgoing == old(transport.outgoing) + f.wrote
    {
      hide SendValid, State, StageChecksum, StageFooter, StageFlush;
      checksum := WriteChecksum();
      footer := WriteFooter();
      rest := WriteRest();
    }

    /** _tgenstream_onWritable: the stages in order, each one write at most. A pending pause is
        over by now. */
    method OnWritable(now: nat, ghost steps: nat) returns (r: Replies, letter: char)
      requires Valid() && Settled() && Enough(steps) && now >= send.barrier
      modifies this`send, this`error, this`recv, transport`outgoing, mmodel
      ensures Valid() && Settled()
      ensures var f := Sender.OnWritable(env, old(State()), r, Draw(steps, letter, now));
              State() == f.end && transport.outgoing == old(transport.outgoing) + f.wrote
    {
      hide RecvValid, SendValid, Settled, State, Enough, StageCommand, StageResponse, StagePayload, StageChecksum, StageFooter, StageFlush;
      ClearBarrier();
      var command := WriteCommand();
      var response, leftover, batch, c := WriteMiddle(now, steps);
      var checksum, footer, rest := WriteClosing();
      r, letter := Replies(command, response, leftover, batch, checksum, footer, rest), c;
    }

    /** _tgenstream_computeWantedEvents: also concludes a receive of unknown size. */
    method ComputeWantedEvents() returns (w: Wants)
      requires Valid() && Settled()
      modifies this`recv
      ensures Valid() && Settled() && State() == FinishReceiving(old(State())) && w == WantedEvents(State())
    {
      hide EnvOk;
      var recvDone := recv.phase.Success? || recv.phase.Failed? || (recv.phase.Idle? && send.state.Broken?) || error != NoError;
      var sendDone := send.state.Sent? || send.state.Broken? || (send.state.Unstarted? && recv.phase.Failed?) || error != NoError;
      if sendDone && !recvDone && info.sizes.recv == 0 && !info.sizes.recvZero && recv.payload >= send.expectRecv {
        recv, recvDone := recv.(phase := Success), true;
      }
      if recvDone && sendDone {
        return Wants(true, false, false, false);
      }
      var read := !recvDone && !recv.phase.Idle?;
      var write := !sendDone && !send.state.Unstarted? && (!send.state.SendFooter? || recv.checksumSeen);
      w := Wants(false, read, write && send.barrier == 0, write && send.barrier > 0);
    }
  }

  function EndingOf(r: ReadResult): Ending {
    if r.Closed? then AtEof else if r.Broke? then AtFault else Open
  }

  function Failure(e: Ending): StreamError {
    if e.AtEof? then ReadEof else ReadError
  }

  /** Two stages in a row, of which the second does nothing once the first met an ending. */
  lemma Onward(env: Env, start: Rx, got: string, end: Ending, more: string, e: Ending)
    requires end.Open? || (more == "" && e.Open?)
    ensures Finish(Run(env, Finish(Run(env, start, got), end), more), e) ==
            Finish(Run(env, start, got + more), if end.Open? then e else end)
  {
    RunAppend(env, start, got, more);
    RunNothing(env, Finish(Run(env, start, got), end));
    assert more == "" ==> got + more == got;
  }

  /** A batch that goes on is not due for a pause. */
  lemma PacedStops(m: Markov.Model, commander: bool, sized: bool, b: Batch)
    requires b.delay <= AT_ONCE
    ensures !Observe(m, commander, sized, b).stop ==> Observe(m, commander, sized, b).delay <= AT_ONCE
  {
  }

  lemma VerdictFacts(env: Env, s: Scan, commander: bool)
    requires EnvOk(env)
    ensures var v := Conclude(env, s, commander);
            (v.1.Some? ==> !commander && Markov.Sound(v.1.value)) &&
            (v.0 == NoError && v.1.None? && !commander ==> s.info.modelSize > 0)
  {
  }

  lemma NormStays(rx: Rx)
    ensures !rx.phase.Model? && !rx.phase.Payload? && !rx.phase.Checksum? && !rx.phase.Footer? ==> Norm(rx) == rx
  {
  }

  /** The buffered and the newly read bytes, regrouped. */
  lemma Regroup(env: Env, rx: Rx, a: string, b: string, c: string, d: string)
    requires a + b == c + d
    ensures Run(env, Run(env, rx, a), b) == Run(env, Run(env, rx, c), d)
  {
    RunAppend(env, rx, a, b);
    RunAppend(env, rx, c, d);
  }

  lemma LoadedSound(env: Env, text: string, seed: nat)
    requires EnvOk(env)
    ensures env.fromText(text, seed).Some? ==> Markov.Sound(env.fromText(text, seed).value)
  {
  }

  lemma ModelPiece(env: Env, base: Rx, kept: string, got: string, data: string, rest: string)
    requires base.phase.Model? && data != "" && |base.blob| + |data| <= base.info.modelSize
    requires kept + got == data + rest
    ensures Run(env, Run(env, base, kept), got) ==
            Run(env, if |base.blob| + |data| == base.info.modelSize then ModelDone(env, base, base.blob + data)
                     else base.(blob := base.blob + data), rest)
  {
    hide ModelDone;
    Regroup(env, base, kept, got, data, rest);
    RunModel(env, base, data);
  }

  lemma PayloadPiece(env: Env, base: Rx, kept: string, got: string, data: string, rest: string)
    requires base.phase.Payload? && data != ""
    requires base.info.sizes.recv > 0 ==> base.payload + |data| <= base.info.sizes.recv
    requires kept + got == data + rest
    ensures Run(env, Run(env, base, kept), got) ==
            Run(env, var r := TakePayload(base, data); if PayloadComplete(r) then EnterChecksum(r) else r, rest)
  {
    hide EnterChecksum;
    Regroup(env, base, kept, got, data, rest);
    RunPayload(env, base, data);
  }

  lemma FooterTwice(rx: Rx)
    ensures EnterFooter(rx.(phase := Footer)) == EnterFooter(rx)
    ensures rx.info.sizes.recv > 0 ==> EnterFooter(rx) == rx.(phase := Footer, line := "")
  {
  }

  lemma WholeLine(env: Env, base: Rx, kept: string, got: string, line: string, rest: string)
    requires LinePhase(base.phase) && base.line == "" && NEWLINE !in line
    requires kept + got == line + [NEWLINE] + rest
    ensures Run(env, Run(env, base, kept), got) == Run(env, LineDone(env, base, line), rest)
  {
    hide Conclude;
    hide ScanHeader;
    Regroup(env, base, kept, got, line + [NEWLINE], rest);
    RunLine(env, base, line);
    assert base.line + line == line;
  }

  /** A failure to read in the middle of a line is the automaton's failure. */
  lemma EndedLine(env: Env, base: Rx, kept: string, end: Ending)
    requires LinePhase(base.phase) && NEWLINE !in kept && !end.Open?
    ensures Finish(Run(env, Run(env, base, kept), ""), end) ==
            Run(env, Fail(base, Failure(end)), kept)
  {
    RunText(env, base, kept);
    RunStopped(env, Fail(base, Failure(end)), kept);
  }

  lemma {:induction false} ErrorSticks(s: Scan, commander: bool, parts: seq<string>, i: nat)
    requires i <= |parts|
    requires i == |parts| || ApplyFields(s, commander, parts[..i]).error != NoError
    ensures ApplyFields(s, commander, parts) == ApplyFields(s, commander, parts[..i])
    decreases |parts|
  {
    var n := |parts| - 1;
    if i == |parts| {
      assert parts[..i] == parts;
    } else {
      assert parts[..n][..i] == parts[..i];
      ErrorSticks(s, commander, parts[..n], i);
    }
  }

  lemma RunSnoc(env: Env, rx: Rx, s: string, i: nat)
    requires i < |s|
    ensures Run(env, rx, s[..i + 1]) == Step(env, Run(env, rx, s[..i]), s[i])
  {
    assert s[..i + 1] == s[..i] + [s[i]];
    RunAppend(env, rx, s[..i], [s[i]]);
    var r := Run(env, rx, s[..i]);
    assert Run(env, r, [s[i]]) == Run(env, Step(env, r, s[i]), [s[i]][1..]);
  }

  /** Once the automaton has stopped, the rest of the bytes do not matter. */
  lemma RunRest(env: Env, rx: Rx, s: string, i: nat)
    requires i <= |s| && Stopped(Run(env, rx, s[..i]).phase)
    ensures Run(env, rx, s) == Run(env, rx, s[..i])
  {
    assert s == s[..i] + s[i..];
    RunAppend(env, rx, s[..i], s[i..]);
    RunStopped(env, Run(env, rx, s[..i]), s[i..]);
  }

  /** What follows a line that ends within the newly read bytes is shorter than they are. */
  lemma RestIsShort(kept: string, read: string, line: string, rest: string)
    requires kept + read == line + [NEWLINE] + rest && NEWLINE !in kept
    ensures |rest| < |read|
  {
    var all := kept + read;
    assert all[|line|] == NEWLINE;
    assert forall j :: 0 <= j < |kept| ==> all[j] == kept[j];
  }

  /** Draining a part of the kept bytes loses nothing exactly when the rest holds no NUL: the rest is
      copied as a C string. */
  lemma DrainKeeps(kept: string, limit: nat)
    requires limit <= |kept|
    ensures kept[..limit] + CString(kept[limit..]) == kept <==> NulFree(kept[limit..])
  {
    assert kept == kept[..limit] + kept[limit..];
    if kept[..limit] + CString(kept[limit..]) == kept {
      assert |CString(kept[limit..])| == |kept[limit..]|;
    }
  }

  /** Draining leaves an empty buffer, and not none, exactly when the first byte of the rest is NUL; the
      next read from that buffer then fails its assertion that there is something to read. */
  lemma DrainLeavesEmpty(kept: string, limit: nat)
    requires limit < |kept|
    ensures CString(kept[limit..]) == "" <==> kept[limit] == NUL
  {
    var rest := kept[limit..];
    if rest[0] == NUL {
      assert rest == [] + [NUL] + rest[1..];
      FindUnique([], NUL, rest[1..]);
    }
  }

  /** Such a loss: of four kept bytes, two are drained and the NUL cuts off the last one. */
  lemma DrainLoses()
    ensures CString(['a', 'b', NUL, 'd'][2..]) == "" && ['a', 'b', NUL, 'd'][..2] + "" != ['a', 'b', NUL, 'd']
  {
    assert ['a', 'b', NUL, 'd'][2..] == [] + [NUL] + ['d'];
    FindUnique([], NUL, ['d']);
  }

  /** A number of readable events, until one meets the end of file or a failure: whatever each of them
      read, the state is the automaton's on all the bytes together. */
  method ReadOn(s: Stream, events: nat) returns (ghost got: string, end: Ending)
    requires s.Valid() && s.Settled()
    modifies s`recv, s`error, s`info, s`mmodel, s`send, s`cue, s.transport`incoming
    ensures s.Valid() && s.Settled() && old(s.transport.incoming) == got + s.transport.incoming
    ensures s.State().rx == Finish(Run(s.env, old(s.State()).rx, got), end)
  {
    hide Run, Finish, Stream.Valid, Stream.Settled;
    got, end := "", Open;
    ghost var start := s.State().rx;
    RunNothing(s.env, start);
    FinishOpen(start);
    var i, open := 0, true;
    while i < events && open
      invariant s.Valid() && s.Settled() && old(s.transport.incoming) == got + s.transport.incoming
      invariant s.State().rx == Finish(Run(s.env, start, got), end) && (open ==> end.Open?)
    {
      ghost var piece;
      ghost var before := s.State().rx;
      FinishOpen(Run(s.env, start, got));
      piece, end := s.OnReadable();
      AbsorbReads(s.env, start, got, piece, end, before, s.State().rx);
      got, i := got + piece, i + 1;
      open := end.Open?;
    }
  }

  lemma FinishOpen(rx: Rx)
    ensures Finish(rx, Open) == rx
  {
  }

  lemma AbsorbReads(env: Env, start: Rx, got: string, piece: string, end: Ending, before: Rx, after: Rx)
    requires before == Run(env, start, got) && after == Finish(Run(env, before, piece), end)
    ensures after == Finish(Run(env, start, got + piece), end)
  {
    RunAppend(env, start, got, piece);
  }

  /** Two streams in the same state, before the same bytes, whatever each of their events reads: once
      both have read the same number of bytes they agree on state, error, header, model, payload and
      left-over line; and the one that has read less agrees as soon as it has read the rest. */
  method SameBytesSameState(a: Stream, b: Stream, eventsOfA: nat, eventsOfB: nat)
    returns (ghost gotA: string, ghost gotB: string, endA: Ending, endB: Ending)
    requires a.Valid() && a.Settled() && b.Valid() && b.Settled() && a != b && a.transport != b.transport
    requires a.env == b.env && a.State().rx == b.State().rx && a.transport.incoming == b.transport.incoming
    modifies a`recv, a`error, a`info, a`mmodel, a`send, a`cue, a.transport`incoming
    modifies b`recv, b`error, b`info, b`mmodel, b`send, b`cue, b.transport`incoming
    ensures old(a.transport.incoming) == gotA + a.transport.incoming == gotB + b.transport.incoming
    ensures |gotA| <= |gotB| ==>
              gotA <= gotB &&
              Run(a.env, Run(a.env, old(a.State()).rx, gotA), gotB[|gotA|..]) == Run(a.env, old(a.State()).rx, gotB)
    ensures |gotA| == |gotB| && endA == endB ==> Agree(a, b)
  {
    hide Run, Finish, Stream.Valid, Stream.Settled;
    ghost var start, all := a.State().rx, a.transport.incoming;
    gotA, endA := ReadOn(a, eventsOfA);
    gotB, endB := ReadOn(b, eventsOfB);
    assert gotA == all[..|gotA|] && gotB == all[..|gotB|];
    if |gotA| <= |gotB| {
      assert gotB == gotA + gotB[|gotA|..];
      RunAppend(a.env, start, gotA, gotB[|gotA|..]);
    }
    if |gotA| == |gotB| && endA == endB {
      SameState(a, b);
    }
  }

  /** Two new server streams fed the same bytes. */
  method FreshServersAgree(env: Env, me: Offer, data: string, eventsOfA: nat, eventsOfB: nat)
    returns (a: Stream, b: Stream, ghost gotA: string, ghost gotB: string, endA: Ending, endB: Ending)
    requires EnvOk(env) && NulFree(data)
    ensures fresh(a) && fresh(b) && fresh(a.transport) && fresh(b.transport) && a != b && a.transport != b.transport
    ensures data == gotA + a.transport.incoming == gotB + b.transport.incoming
    ensures a.State().rx == Finish(Run(env, NewEnd(me, None, NewSizes(None, None)).rx, gotA), endA)
    ensures |gotA| == |gotB| && endA == endB ==> Agree(a, b)
  {
    hide Run, Finish, Stream.Valid, Stream.Settled, NewEnd;
    var s := new Transport();
    var t := new Transport();
    s.incoming, t.incoming := data, data;
    a := new Stream(env, me, s, null, None, None);
    b := new Stream(env, me, t, null, None, None);
    gotA, endA := ReadOn(a, eventsOfA);
    gotB, endB := ReadOn(b, eventsOfB);
    assert gotA == data[..|gotA|] && gotB == data[..|gotB|];
    if |gotA| == |gotB| && endA == endB {
      SameState(a, b);
    }
  }

  /** The same receiving state, as far as it can be told from outside. */
  ghost predicate Agree(a: Stream, b: Stream)
    reads a, b, a.mmodel, b.mmodel
  {
    a.recv.phase == b.recv.phase && a.error == b.error && a.info == b.info && a.Loaded() == b.Loaded() &&
    Bytes(a.recv.blob) == Bytes(b.recv.blob) && a.recv.payload == b.recv.payload && a.recv.digested == b.recv.digested &&
    (LinePhase(a.recv.phase) ==> Bytes(a.recv.buffer) == Bytes(b.recv.buffer))
  }

  lemma SameState(a: Stream, b: Stream)
    requires a.State().rx == b.State().rx
    ensures Agree(a, b)
  {
  }

  /** A fresh commander asks for the sizes it was given, an unset one as zero without the zero flag; asked
      to send zero bytes it is done at once exactly when a receive size was given as well: otherwise the
      request is forgotten and the model decides. */
  lemma ZeroSendNeedsReceiveSize(me: Offer, model: Markov.Model, send: Option<nat>, recv: Option<nat>)
    ensures var e := NewEnd(me, Some(model), NewSizes(send, recv)); var z := e.rx.info.sizes;
            (send.Some? ==> z.send == send.value) && (send.None? ==> z.send == 0 && !z.sendZero) &&
            (recv.Some? ==> z.recv == recv.value && (z.recvZero <==> recv.value == 0)) &&
            (recv.None? ==> z.recv == 0 && !z.recvZero) &&
            (send == Some(0) ==> (DoneSending(e) <==> recv.Some?)) && (send != Some(0) ==> !DoneSending(e) && !z.sendZero)
  {
  }
}
