/** Timers, and the I/O loop's deferral of writes: the epoll interest mask of a stream's socket and
    the one-shot timer that turns write events back on. */
module Timers {
  import opened Options

  const NANOS_PER_MICRO: nat := 1000
  const MICROS_PER_SECOND: nat := 1000000

  /** What timerfd_settime is given. */
  datatype Spec = Spec(seconds: nat, nanos: nat)

  function Nanos(s: Spec): nat {
    s.seconds * MICROS_PER_SECOND * NANOS_PER_MICRO + s.nanos
  }

  function SpecOf(micros: nat): (s: Spec)
    ensures Nanos(s) == micros * NANOS_PER_MICRO && s.nanos < MICROS_PER_SECOND * NANOS_PER_MICRO
  {
    Spec(micros / MICROS_PER_SECOND, micros % MICROS_PER_SECOND * NANOS_PER_MICRO)
  }

  /** A timer descriptor. `due` is the nanosecond of its next expiry, kept until that expiry is
      read; the clock is a parameter. */
  class Timer {
    const persistent: bool
    var due: Option<nat>
    var interval: nat

    /** A zero delay would disarm, so it becomes one nanosecond. */
    constructor (now: nat, micros: nat, persistent: bool)
      ensures this.persistent == persistent
      ensures due == Some(now + if micros == 0 then 1 else micros * NANOS_PER_MICRO)
      ensures interval == if persistent then due.value - now else 0
    {
      var s := SpecOf(micros);
      var nanos := if s.seconds == 0 && s.nanos == 0 then 1 else Nanos(s);
      this.persistent := persistent;
      due, interval := Some(now + nanos), if persistent then nanos else 0;
    }

    /** Unread expirations of an earlier setting are forgotten; zero disarms. */
    method SetExpireTimeMicros(now: nat, micros: nat)
      modifies this
      ensures due == if micros == 0 then None else Some(now + micros * NANOS_PER_MICRO)
      ensures interval == if persistent then micros * NANOS_PER_MICRO else 0
    {
      var s := SpecOf(micros);
      due := if Nanos(s) == 0 then None else Some(now + Nanos(s));
      interval := if persistent then Nanos(s) else 0;
    }

    method Cancel()
      modifies this
      ensures due == None && interval == 0
    {
      due, interval := None, 0;
    }

    predicate Expired(now: nat)
      reads this
    {
      due.Some? && due.value <= now
    }

    /** read(2) on the descriptor: false is EAGAIN. A read consumes the expirations so far. */
    method ReadExpirations(now: nat) returns (expired: bool)
      modifies this
      ensures expired == old(Expired(now)) && interval == old(interval)
      ensures !expired ==> due == old(due)
      ensures expired && interval == 0 ==> due == None
      ensures expired && interval > 0 ==>
                due.Some? && now < due.value <= now + interval && exists k: nat :: due.value == old(due).value + Times(interval, k)
    {
      expired := Expired(now);
      if expired && interval > 0 {
        due := Some(due.value + Times(interval, (now - due.value) / interval + 1));
        NextDue(now, old(due.value), interval);
      } else if expired {
        due := None;
      }
    }
  }

  function Times(interval: nat, k: nat): nat {
    k * interval
  }

  /** The next multiple of the interval after now. */
  lemma NextDue(now: nat, due: nat, interval: nat)
    requires due <= now && interval > 0
    ensures now < due + ((now - due) / interval + 1) * interval <= now + interval
  {
    var q, r := (now - due) / interval, (now - due) % interval;
    assert now - due == q * interval + r;
    assert (q + 1) * interval == q * interval + interval;
  }
}

module Deferral {
  import opened Options
  import opened Timers

  datatype Mask = Mask(read: bool, write: bool)

  /** One entry of an epoll batch, as it was when the batch was taken. */
  datatype Ready = Socket(read: bool, write: bool, failed: bool) | TimerReady

  /** What a stream asks for after an event. Its pause, when there is one, is its barrier. */
  datatype Response = Finished | Wanted(read: bool, write: bool, deferUntil: Option<nat>)

  /** Everything the loop knows about one stream: the child with its interest mask and defer
      timer, the stream's barrier (0 when none; microseconds), the clock, and the entries of the
      current batch not handled yet. */
  class Watch {
    var now: nat
    var registered: bool
    var mask: Mask
    var timer: Timer?
    var barrier: nat
    var batch: seq<Ready>

    /** Bookkeeping: the clock and the barrier at every delivered write event; every event given to
        the stream; its last response and when that was judged; and whether the defer timer's expiry
        has been read since. */
    ghost var writes: seq<(nat, nat)>
    ghost var delivered: seq<Ready>
    ghost var asked: Response
    ghost var judged: nat
    ghost var woken: bool

    constructor (now: nat)
      ensures Valid() && registered && barrier == 0 && batch == [] && writes == [] && timer == null
      ensures mask == Mask(true, true) && delivered == []
    {
      this.now, registered, mask, timer, barrier, batch, writes := now, true, Mask(true, true), null, 0, [], [];
      delivered, asked, judged, woken := [], Wanted(true, true, None), now, false;
    }

    /** In nanoseconds, as the timers count. */
    function Clock(): nat
      reads this
    {
      now * NANOS_PER_MICRO
    }

    /** A write event is at hand: watched for, or an entry of the batch already. */
    ghost predicate AskedToWrite()
      reads this
    {
      mask.write || exists i :: 0 <= i < |batch| && batch[i].Socket? && batch[i].write
    }

    /** Deferred-write safety: before the barrier nobody may deliver a write, and the timer expires at
        the barrier. */
    ghost predicate Held()
      reads this, timer
    {
      now < barrier ==>
        !AskedToWrite() && timer != null && timer.due == Some(barrier * NANOS_PER_MICRO)
    }

    /** No lost deferral: while a barrier is set, writes are watched for or the timer has yet to be
        read. */
    ghost predicate Remembered()
      reads this, timer
    {
      barrier > 0 ==> mask.write || (timer != null && timer.due == Some(barrier * NANOS_PER_MICRO))
    }

    /** What is watched for is what the stream asked for: reads as asked; writes when they were asked
        for, or their deferral had passed when the response was judged, or the timer has expired. */
    ghost predicate Watching()
      reads this
    {
      asked.Wanted? && mask.read == asked.read &&
      (mask.write <==> asked.write || (asked.deferUntil.Some? && asked.deferUntil.value <= judged) || woken)
    }

    /** A batch has at most one entry for each descriptor. */
    ghost predicate BatchOk()
      reads this
    {
      (forall i, j :: 0 <= i < j < |batch| ==> batch[i].Socket? != batch[j].Socket?) &&
      (registered && timer == null ==> forall i :: 0 <= i < |batch| ==> batch[i].Socket?)
    }

    ghost predicate WritesOk()
      reads this
    {
      forall i :: 0 <= i < |writes| ==> writes[i].1 <= writes[i].0
    }

    ghost predicate Valid()
      reads this, timer
    {
      WritesOk() && BatchOk() && (timer != null ==> !timer.persistent && timer.interval == 0) &&
      (registered ==> Held() && Remembered() && Watching())
    }

    method Tick()
      requires Valid()
      modifies this`now
      ensures Valid() && now >= old(now)
    {
      var t: nat :| t >= now;
      now := t;
    }

    /** The stream handles an event (module StreamObject). It insists that a write comes no earlier
        than its barrier, which it then clears and may set anew; a failed socket clears it as well.
        With a barrier it asks for a deferral (Sending.PauseDefers), without one maybe for a write. */
    method Notify(read: bool, write: bool, failed: bool) returns (r: Response)
      requires WritesOk() && (write ==> barrier <= now)
      modifies this`barrier, this`writes, this`asked, this`delivered
      ensures asked == r && delivered == old(delivered) + [Socket(read, write, failed)]
      ensures WritesOk() && (!write && !failed ==> barrier == old(barrier))
      ensures writes == if write then old(writes) + [(now, old(barrier))] else old(writes)
      ensures r.Wanted? ==> if barrier > 0 then !r.write && r.deferUntil == Some(barrier) else r.deferUntil.None?
    {
      delivered := delivered + [Socket(read, write, failed)];
      if write {
        assert now >= barrier;
        writes := writes + [(now, barrier)];
      }
      if write || failed {
        barrier := 0;
        if * {
          var delay: nat :| delay > 0;
          barrier := now + delay;
        }
      }
      var done, wantsRead, wantsWrite := *, *, *;
      r := if done then Finished else Wanted(wantsRead, wantsWrite && barrier == 0, if barrier > 0 then Some(barrier) else None);
      asked := r;
    }

    /** _tgenio_deregister: the child leaves the table, its timer is cancelled and leaves as well. */
    method Deregister()
      modifies this`registered, this`timer, timer
      ensures !registered && timer == null
      ensures old(timer) != null ==> old(timer).due == None
    {
      if timer != null {
        timer.Cancel();
        timer := null;
      }
      registered := false;
    }

    /** _tgenio_setDeferTimer: one timer per child, created once and set again every time. */
    method SetDeferTimer(pause: nat)
      requires pause > 0 && (timer != null ==> !timer.persistent)
      modifies this`timer, timer
      ensures timer != null && !timer.persistent && timer.interval == 0 && timer.due == Some(Clock() + pause * NANOS_PER_MICRO)
      ensures timer == old(timer) || (old(timer) == null && fresh(timer))
    {
      if timer != null {
        timer.SetExpireTimeMicros(Clock(), pause);
      } else {
        timer := new Timer(Clock(), pause, false);
      }
    }

    /** _tgenio_helper on the stream's socket: the stream gets the event, and stays registered unless
        the socket has failed or the stream is done. Time passes while the stream works. */
    method HandleSocket(e: Ready)
      requires WritesOk() && BatchOk() && (timer != null ==> !timer.persistent && timer.interval == 0)
      requires registered && e.Socket? && (e.write ==> barrier <= now) && Held() && Remembered()
      requires forall i :: 0 <= i < |batch| ==> batch[i].TimerReady?
      modifies this, timer
      ensures Valid() && batch == old(batch) && now >= old(now)
      ensures timer == old(timer) || timer == null || fresh(timer)
      ensures delivered == old(delivered) + [e]
      ensures registered <==> !e.failed && asked.Wanted?
      ensures registered ==> judged == now && !woken
    {
      var r := Notify(e.read, e.write, e.failed);
      if e.failed || r.Finished? {
        Deregister();
        return;
      }
      var later: nat :| later >= now;
      now := later;
      var write := false;
      if r.deferUntil.Some? {
        if r.deferUntil.value > now {
          SetDeferTimer(r.deferUntil.value - now);
        } else {
          write := true;
        }
      } else {
        write := r.write;
      }
      mask := Mask(r.read, write);
      judged, woken := now, false;
    }

    /** tgentimer_onEvent on the defer timer: an expiry turns write events on again. A timer that
        was set again since the batch was taken has nothing to read. */
    method HandleTimer()
      requires Valid() && registered
      modifies this`mask, this`woken, timer
      ensures Valid() && mask.read == old(mask.read)
      ensures var expired := timer != null && old(timer != null && timer.Expired(Clock()));
              (mask.write <==> old(mask.write) || expired) && (woken <==> old(woken) || expired)
    {
      if timer == null {
        return;
      }
      var expired := timer.ReadExpirations(Clock());
      if expired {
        mask := mask.(write := true);
        woken := true;
      }
    }

    /** epoll_wait: watched and ready entries, in any order, each descriptor once. Failures of the
        socket are reported whatever the mask; the timer is ready once it has expired. */
    method EpollWait()
      requires Valid() && registered && batch == []
      modifies this`batch
      ensures Valid()
      ensures forall i :: 0 <= i < |batch| ==>
                if batch[i].Socket? then (batch[i].read ==> mask.read) && (batch[i].write ==> mask.write)
                else timer != null && timer.Expired(Clock())
    {
      var read, write, failed, expired, first := *, *, *, *, *;
      var socket := Socket(read && mask.read, write && mask.write, failed);
      var sockets := if socket == Socket(false, false, false) then [] else [socket];
      var timers := if expired && timer != null && timer.Expired(Clock()) then [TimerReady] else [];
      batch := if first then sockets + timers else timers + sockets;
    }

    /** The entries of the stream's socket. */
    ghost function Sockets(s: seq<Ready>): seq<Ready> {
      if s == [] then [] else (if s[0].Socket? then [s[0]] else []) + Sockets(s[1..])
    }

    /** tgenio_loopOnce: the entries of one batch in order, with time passing in between. The stream
        gets exactly the socket's entries; every write event comes at or after the stream's barrier, a
        deferral is never forgotten, and what is watched for afterwards is what the stream asked for,
        whatever the order of socket and timer. */
    method LoopOnce() returns (ghost taken: seq<Ready>)
      requires Valid() && registered && batch == []
      modifies this, timer
      ensures Valid() && batch == [] && now >= old(now)
      ensures forall i :: 0 <= i < |writes| ==> writes[i].1 <= writes[i].0
      ensures registered && barrier > 0 ==> mask.write || (timer != null && timer.due == Some(barrier * NANOS_PER_MICRO))
      ensures delivered == old(delivered) + Sockets(taken)
      ensures registered ==>
                asked.Wanted? && mask.read == asked.read &&
                (mask.write <==> asked.write || (asked.deferUntil.Some? && asked.deferUntil.value <= judged) || woken)
      ensures !registered <==> exists i :: 0 <= i < |taken| && taken[i].Socket? && (taken[i].failed || asked.Finished?)
      ensures forall i :: 0 <= i < |taken| && taken[i].Socket? ==>
                (taken[i].read ==> old(mask.read)) && (taken[i].write ==> old(mask.write))
      ensures timer == old(timer) || timer == null || fresh(timer)
    {
      EpollWait();
      taken := batch;
      while batch != []
        invariant Valid() && now >= old(now)
        invariant delivered + Sockets(batch) == old(delivered) + Sockets(taken)
        invariant |batch| <= |taken| && batch == taken[|taken| - |batch|..]
        invariant !registered <==> exists i :: 0 <= i < |taken| - |batch| && taken[i].Socket? && (taken[i].failed || asked.Finished?)
        invariant timer == old(timer) || timer == null || fresh(timer)
        decreases |batch|
      {
        Tick();
        HandleNext();
      }
    }

    /** One entry; a descriptor deregistered meanwhile is skipped. */
    method HandleNext()
      requires Valid() && batch != []
      modifies this, timer
      ensures Valid() && batch == old(batch[1..]) && now >= old(now)
      ensures delivered == if old(registered && batch[0].Socket?) then old(delivered) + [old(batch[0])] else old(delivered)
      ensures if old(registered && batch[0].Socket?) then registered <==> !old(batch[0]).failed && asked.Wanted?
              else registered == old(registered) && asked == old(asked)
      ensures timer == old(timer) || timer == null || fresh(timer)
    {
      var e := batch[0];
      assert registered && e.Socket? && e.write ==> barrier <= now;
      batch := batch[1..];
      if !registered {
        return;
      }
      match e {
        case Socket(_, _, _) => HandleSocket(e);
        case TimerReady => HandleTimer();
      }
    }
  }
}
