/** Reference counts of the I/O loop's children and defer timers. A child with a defer timer and the
    timer hold references to each other, and the table holds a second child that watches the
    timer's descriptor. Memory is a pair of maps from addresses to live objects: touching an address
    that is not live sets `dangling`. */
module Lifetimes {
  import opened Options

  type Ref = nat

  /** A child's data: an object handed over at registration, or a watched defer timer. */
  datatype Data = Payload(id: nat) | Watched(timer: Ref)

  datatype Child = Child(refs: int, fd: nat, timer: Option<Ref>, data: Data)

  datatype Timer = Timer(refs: int, fd: nat, owner: Ref)

  /** `freed` lists the payload objects destroyed so far. */
  datatype World = World(children: map<Ref, Child>, timers: map<Ref, Timer>, table: map<nat, Ref>, freed: seq<nat>, dangling: bool)

  function Size(w: World): nat {
    |w.children| + |w.timers|
  }

  // ---- Release ----

  function FreeChild(w: World, c: Ref): (r: World)
    requires c in w.children
    ensures Size(r) < Size(w)
  {
    w.(children := w.children - {c})
  }

  function FreeTimer(w: World, t: Ref): (r: World)
    requires t in w.timers
    ensures Size(r) < Size(w)
  {
    w.(timers := w.timers - {t})
  }

  /** Release frees or keeps children; it never gives one a timer. */
  predicate NoNewTimers(w: World, r: World) {
    forall c :: c in r.children ==> c in w.children && r.children[c].timer == w.children[c].timer
  }

  /** _tgeniochild_unref: at zero the child's data is destroyed, then its timer released. */
  function ChildUnref(w: World, c: Ref): (r: World)
    ensures Size(r) <= Size(w) && NoNewTimers(w, r)
    decreases Size(w)
  {
    if c !in w.children then w.(dangling := true)
    else
      var cell := w.children[c].(refs := w.children[c].refs - 1);
      if cell.refs > 0 then w.(children := w.children[c := cell])
      else
        var w1 := FreeChild(w, c);
        var w2 := if cell.data.Payload? then w1.(freed := w1.freed + [cell.data.id]) else TimerUnref(w1, cell.data.timer);
        if cell.timer.Some? then TimerUnref(w2, cell.timer.value) else w2
  }

  /** tgentimer_unref: at zero the timer releases its owner. */
  function TimerUnref(w: World, t: Ref): (r: World)
    ensures Size(r) <= Size(w) && NoNewTimers(w, r)
    decreases Size(w)
  {
    if t !in w.timers then w.(dangling := true)
    else
      var cell := w.timers[t].(refs := w.timers[t].refs - 1);
      if cell.refs > 0 then w.(timers := w.timers[t := cell]) else ChildUnref(FreeTimer(w, t), cell.owner)
  }

  /** Let go of the child's defer timer. */
  function DropTimer(w: World, c: Ref): World {
    if c !in w.children then w.(dangling := true)
    else if w.children[c].timer.None? then w
    else
      var r := TimerUnref(w, w.children[c].timer.value);
      if c in r.children then r.(children := r.children[c := r.children[c].(timer := None)]) else r.(dangling := true)
  }

  /** The table's destructor of a child. */
  function DestroyChild(w: World, c: Ref): World {
    ChildUnref(DropTimer(w, c), c)
  }

  /** An entry leaves the table, which destroys its child. */
  function RemoveEntry(w: World, fd: nat): World {
    if fd !in w.table then w else DestroyChild(w.(table := w.table - {fd}), w.table[fd])
  }

  // ---- The invariant ----

  predicate InTable(w: World, c: Ref) {
    c in w.children && w.children[c].fd in w.table && w.table[w.children[c].fd] == c
  }

  ghost predicate Owns(w: World, c: Ref) {
    exists t :: t in w.timers && w.timers[t].owner == c
  }

  predicate WatcherAlive(w: World, t: Ref) {
    t in w.timers && w.timers[t].fd in w.table && w.table[w.timers[t].fd] in w.children &&
    w.children[w.table[w.timers[t].fd]].data == Watched(t)
  }

  predicate OwnerHolds(w: World, t: Ref) {
    t in w.timers && w.timers[t].owner in w.children && w.children[w.timers[t].owner].timer == Some(t)
  }

  function Count(b: bool): int {
    if b then 1 else 0
  }

  /** A child that watches a timer is held by the table only; any other child by the table and by
      the timer that it owns. */
  ghost predicate ChildOk(w: World, c: Ref)
    requires c in w.children
  {
    var cell := w.children[c];
    if cell.data.Watched? then
      InTable(w, c) && cell.timer.None? && cell.refs == 1 &&
      cell.data.timer in w.timers && w.timers[cell.data.timer].fd == cell.fd
    else
      cell.refs == Count(InTable(w, c)) + Count(Owns(w, c)) && cell.refs >= 1 &&
      (cell.timer.Some? ==> InTable(w, c) && cell.timer.value in w.timers && w.timers[cell.timer.value].owner == c)
  }

  /** A timer is held by its owner and by the child that watches it. */
  ghost predicate TimerOk(w: World, t: Ref)
    requires t in w.timers
  {
    w.timers[t].owner in w.children && w.children[w.timers[t].owner].data.Payload? &&
    w.timers[t].refs == Count(OwnerHolds(w, t)) + Count(WatcherAlive(w, t)) && w.timers[t].refs >= 1
  }

  ghost predicate TableOk(w: World) {
    forall fd :: fd in w.table ==> w.table[fd] in w.children && w.children[w.table[fd]].fd == fd
  }

  /** Reference counts equal the numbers of holders, and nothing dangles. */
  ghost predicate Counted(w: World) {
    !w.dangling && TableOk(w) &&
    (forall c :: c in w.children ==> ChildOk(w, c)) &&
    (forall t :: t in w.timers ==> TimerOk(w, t)) &&
    (forall s, t :: s in w.timers && t in w.timers && w.timers[s].owner == w.timers[t].owner ==> s == t)
  }

  ghost predicate Carries(w: World, c: Ref, id: nat) {
    c in w.children && w.children[c].data == Payload(id)
  }

  /** Payload objects are destroyed once: the live ones are pairwise different and not among the
      destroyed, which are pairwise different too. */
  ghost predicate Once(w: World) {
    (forall c, d, id :: Carries(w, c, id) && Carries(w, d, id) ==> c == d) &&
    (forall c, id :: Carries(w, c, id) ==> id !in w.freed) &&
    (forall i, j :: 0 <= i < j < |w.freed| ==> w.freed[i] != w.freed[j])
  }

  ghost predicate Live(w: World, id: nat) {
    exists c :: Carries(w, c, id)
  }

  /** No payload object is lost: live before means live or destroyed after. */
  ghost predicate Conserves(w: World, r: World) {
    (forall id :: Live(w, id) || id in w.freed <==> Live(r, id) || id in r.freed)
  }

  // ---- One entry leaves the table ----

  function Untabled(w: World, fd: nat): World {
    w.(table := w.table - {fd})
  }

  lemma UnrefHeldChild(w: World, c: Ref)
    requires c in w.children && w.children[c].refs > 1
    ensures ChildUnref(w, c) == w.(children := w.children[c := w.children[c].(refs := w.children[c].refs - 1)])
  {
    hide TimerUnref;
  }

  lemma UnrefLastChild(w: World, c: Ref)
    requires c in w.children && w.children[c].refs == 1 && w.children[c].timer.None?
    ensures ChildUnref(w, c) ==
            match w.children[c].data
            case Payload(id) => w.(children := w.children - {c}, freed := w.freed + [id])
            case Watched(t) => TimerUnref(w.(children := w.children - {c}), t)
  {
    hide TimerUnref;
  }

  lemma UnrefTimer(w: World, t: Ref)
    requires t in w.timers && w.timers[t].refs >= 1
    ensures TimerUnref(w, t) ==
            if w.timers[t].refs > 1 then w.(timers := w.timers[t := w.timers[t].(refs := w.timers[t].refs - 1)])
            else ChildUnref(w.(timers := w.timers - {t}), w.timers[t].owner)
  {
    hide ChildUnref;
  }

  lemma WatcherFacts(w: World, fd: nat)
    requires Counted(w) && fd in w.table && w.children[w.table[fd]].data.Watched?
    ensures var d := w.table[fd]; var t := w.children[d].data.timer;
            w.children[d].refs == 1 && w.children[d].timer.None? && t in w.timers && w.timers[t].fd == fd && WatcherAlive(w, t) &&
            w.timers[t].owner in w.children && w.timers[t].owner != d && w.children[w.timers[t].owner].data.Payload? &&
            w.timers[t].refs == 1 + Count(OwnerHolds(w, t)) &&
            w.children[w.timers[t].owner].refs == 1 + Count(InTable(w, w.timers[t].owner)) &&
            (!InTable(w, w.timers[t].owner) ==> w.children[w.timers[t].owner].timer.None?)
  {
    var d := w.table[fd];
    var t := w.children[d].data.timer;
    assert ChildOk(w, d) && TimerOk(w, t) && ChildOk(w, w.timers[t].owner);
    assert Owns(w, w.timers[t].owner);
  }

  lemma HolderFacts(w: World, fd: nat)
    requires Counted(w) && fd in w.table && w.children[w.table[fd]].data.Payload? && w.children[w.table[fd]].timer.Some?
    ensures var c := w.table[fd]; var t := w.children[c].timer.value;
            w.children[c].refs == 2 && t in w.timers && w.timers[t].owner == c && w.timers[t].refs == 1 + Count(WatcherAlive(w, t))
  {
    var c := w.table[fd];
    var t := w.children[c].timer.value;
    assert ChildOk(w, c) && TimerOk(w, t);
    assert Owns(w, c);
  }

  /** The watcher of a timer is destroyed while the owner still holds the timer. */
  lemma WatcherFirst(w: World, fd: nat)
    requires Counted(w) && fd in w.table && w.children[w.table[fd]].data.Watched?
    requires OwnerHolds(w, w.children[w.table[fd]].data.timer)
    ensures var d := w.table[fd]; var t := w.children[d].data.timer;
            RemoveEntry(w, fd) == Untabled(w, fd).(children := w.children - {d}, timers := w.timers[t := w.timers[t].(refs := 1)])
  {
    WatcherFacts(w, fd);
    hide Counted, WatcherAlive, ChildUnref, TimerUnref;
    var d := w.table[fd];
    UnrefLastChild(Untabled(w, fd), d);
    UnrefTimer(Untabled(w, fd).(children := w.children - {d}), w.children[d].data.timer);
  }

  /** The watcher is destroyed last, the timer with it, and the owner loses its reference. */
  lemma WatcherLast(w: World, fd: nat)
    requires Counted(w) && fd in w.table && w.children[w.table[fd]].data.Watched?
    requires !OwnerHolds(w, w.children[w.table[fd]].data.timer)
    ensures var d := w.table[fd]; var t := w.children[d].data.timer; var c := w.timers[t].owner;
            RemoveEntry(w, fd) ==
            if InTable(w, c) then
              Untabled(w, fd).(children := (w.children - {d})[c := w.children[c].(refs := 1)], timers := w.timers - {t})
            else
              Untabled(w, fd).(children := w.children - {d} - {c}, timers := w.timers - {t}, freed := w.freed + [w.children[c].data.id])
  {
    WatcherFacts(w, fd);
    hide Counted, WatcherAlive, ChildUnref, TimerUnref;
    var d := w.table[fd];
    var t := w.children[d].data.timer;
    var w1 := Untabled(w, fd).(children := w.children - {d});
    var w2 := w1.(timers := w.timers - {t});
    UnrefLastChild(Untabled(w, fd), d);
    UnrefTimer(w1, t);
    if InTable(w, w.timers[t].owner) { UnrefHeldChild(w2, w.timers[t].owner); } else { UnrefLastChild(w2, w.timers[t].owner); }
  }

  /** A child is destroyed that does not hold a timer. */
  lemma ChildWithoutTimer(w: World, fd: nat)
    requires Counted(w) && fd in w.table && w.children[w.table[fd]].data.Payload? && w.children[w.table[fd]].timer.None?
    ensures var c := w.table[fd];
            RemoveEntry(w, fd) ==
            if Owns(w, c) then Untabled(w, fd).(children := w.children[c := w.children[c].(refs := 1)])
            else Untabled(w, fd).(children := w.children - {c}, freed := w.freed + [w.children[c].data.id])
  {
    assert ChildOk(w, w.table[fd]);
  }

  lemma DropHeldTimer(w: World, c: Ref, t: Ref)
    requires c in w.children && w.children[c].timer == Some(t) && t in w.timers && w.timers[t].refs > 1
    ensures DropTimer(w, c) ==
            w.(timers := w.timers[t := w.timers[t].(refs := w.timers[t].refs - 1)],
               children := w.children[c := w.children[c].(timer := None)])
  {
    hide TimerUnref;
    UnrefTimer(w, t);
  }

  lemma DropLastTimer(w: World, c: Ref, t: Ref)
    requires c in w.children && w.children[c].timer == Some(t) && w.children[c].refs > 1
    requires t in w.timers && w.timers[t].refs == 1 && w.timers[t].owner == c
    ensures DropTimer(w, c) ==
            w.(timers := w.timers - {t}, children := w.children[c := w.children[c].(refs := w.children[c].refs - 1, timer := None)])
  {
    hide TimerUnref, ChildUnref;
    UnrefTimer(w, t);
    UnrefHeldChild(w.(timers := w.timers - {t}), c);
  }

  /** A child is destroyed that holds a timer: the timer stays for its watcher, or goes as well. */
  lemma ChildWithTimer(w: World, fd: nat)
    requires Counted(w) && fd in w.table && w.children[w.table[fd]].data.Payload? && w.children[w.table[fd]].timer.Some?
    ensures var c := w.table[fd]; var t := w.children[c].timer.value;
            RemoveEntry(w, fd) ==
            if WatcherAlive(w, t) then
              Untabled(w, fd).(children := w.children[c := w.children[c].(refs := 1, timer := None)],
                               timers := w.timers[t := w.timers[t].(refs := 1)])
            else
              Untabled(w, fd).(children := w.children - {c}, timers := w.timers - {t}, freed := w.freed + [w.children[c].data.id])
  {
    HolderFacts(w, fd);
    hide Counted, WatcherAlive, ChildUnref, TimerUnref, DropTimer;
    var t := w.children[w.table[fd]].timer.value;
    if WatcherAlive(w, t) { HolderFirst(w, fd, t); } else { HolderLast(w, fd, t); }
  }

  lemma HolderFirst(w: World, fd: nat, t: Ref)
    requires fd in w.table && w.table[fd] in w.children && w.children[w.table[fd]].timer == Some(t)
    requires w.children[w.table[fd]].refs == 2 && t in w.timers && w.timers[t].refs == 2
    ensures var c := w.table[fd];
            RemoveEntry(w, fd) ==
            Untabled(w, fd).(children := w.children[c := w.children[c].(refs := 1, timer := None)],
                             timers := w.timers[t := w.timers[t].(refs := 1)])
  {
    hide ChildUnref, TimerUnref, DropTimer;
    var c, w0 := w.table[fd], Untabled(w, fd);
    DropHeldTimer(w0, c, t);
    UnrefHeldChild(DropTimer(w0, c), c);
  }

  lemma HolderLast(w: World, fd: nat, t: Ref)
    requires fd in w.table && w.table[fd] in w.children && w.children[w.table[fd]].timer == Some(t)
    requires w.children[w.table[fd]].refs == 2 && w.children[w.table[fd]].data.Payload?
    requires t in w.timers && w.timers[t].refs == 1 && w.timers[t].owner == w.table[fd]
    ensures var c := w.table[fd];
            RemoveEntry(w, fd) ==
            Untabled(w, fd).(children := w.children - {c}, timers := w.timers - {t}, freed := w.freed + [w.children[c].data.id])
  {
    hide ChildUnref, TimerUnref, DropTimer;
    var c, w0 := w.table[fd], Untabled(w, fd);
    DropLastTimer(w0, c, t);
    UnrefLastChild(DropTimer(w0, c), c);
    assert w.children[c := w.children[c].(refs := 1, timer := None)] - {c} == w.children - {c};
  }

  // ---- The invariant is kept ----

  /** A child that keeps its record, its place and its timer is as right as before. */
  lemma ChildSame(w: World, r: World, b: Ref)
    requires b in w.children && ChildOk(w, b) && b in r.children && r.children[b] == w.children[b]
    requires InTable(r, b) == InTable(w, b) && Owns(r, b) == Owns(w, b)
    requires forall t :: t in w.timers && (w.children[b].timer == Some(t) || w.children[b].data == Watched(t)) ==>
               t in r.timers && r.timers[t].owner == w.timers[t].owner && r.timers[t].fd == w.timers[t].fd
    ensures ChildOk(r, b)
  {
  }

  lemma TimerSame(w: World, r: World, s: Ref)
    requires s in w.timers && TimerOk(w, s) && s in r.timers && r.timers[s] == w.timers[s]
    requires w.timers[s].owner in r.children && r.children[w.timers[s].owner].data == w.children[w.timers[s].owner].data
    requires OwnerHolds(r, s) == OwnerHolds(w, s) && WatcherAlive(r, s) == WatcherAlive(w, s)
    ensures TimerOk(r, s)
  {
  }

  /** Only what timers exist, and who owns them, decides what a child owns. */
  lemma OwnsSame(w: World, r: World, b: Ref)
    requires forall t :: t in r.timers ==> t in w.timers && r.timers[t].owner == w.timers[t].owner
    requires forall t :: t in w.timers && w.timers[t].owner == b ==> t in r.timers
    ensures Owns(r, b) == Owns(w, b)
  {
    if Owns(w, b) {
      var s :| s in w.timers && w.timers[s].owner == b;
      assert r.timers[s].owner == b;
    }
  }

  lemma WatcherFirstCounted(w: World, fd: nat)
    requires Counted(w) && fd in w.table && w.children[w.table[fd]].data.Watched?
    requires OwnerHolds(w, w.children[w.table[fd]].data.timer)
    ensures Counted(RemoveEntry(w, fd))
  {
    hide RemoveEntry, ChildOk, TimerOk, Owns;
    WatcherFacts(w, fd);
    WatcherFirst(w, fd);
    var d := w.table[fd];
    var t, r := w.children[d].data.timer, RemoveEntry(w, fd);
    forall b | b in r.children ensures ChildOk(r, b) {
      OwnsSame(w, r, b);
      ChildSame(w, r, b);
    }
    forall s | s in r.timers ensures TimerOk(r, s) {
      if s != t {
        OtherOwner(w, s, d);
        TimerSame(w, r, s);
      } else {
        LoneTimer(r, t);
      }
    }
  }

  lemma OtherOwner(w: World, s: Ref, d: Ref)
    requires s in w.timers && TimerOk(w, s) && d in w.children && w.children[d].data.Watched?
    ensures w.timers[s].owner != d && w.timers[s].owner in w.children
  {
  }

  lemma LoneTimer(r: World, t: Ref)
    requires t in r.timers && r.timers[t].refs == 1 && OwnerHolds(r, t) != WatcherAlive(r, t)
    requires r.timers[t].owner in r.children && r.children[r.timers[t].owner].data.Payload?
    ensures TimerOk(r, t)
  {
  }

  lemma WatcherLastCounted(w: World, fd: nat)
    requires Counted(w) && fd in w.table && w.children[w.table[fd]].data.Watched?
    requires !OwnerHolds(w, w.children[w.table[fd]].data.timer)
    ensures Counted(RemoveEntry(w, fd))
  {
    hide RemoveEntry, TimerOk, Owns, ChildOk;
    WatcherFacts(w, fd);
    WatcherLast(w, fd);
    var d := w.table[fd];
    var t := w.children[d].data.timer;
    var c, r := w.timers[t].owner, RemoveEntry(w, fd);
    NoOtherTimer(w, t, c);
    forall b | b in r.children ensures ChildOk(r, b) {
      if b != c {
        OwnsSame(w, r, b);
        WatchesOther(w, b, d, t);
        ChildSame(w, r, b);
      } else {
        assert !Owns(r, c) by { NoneOwned(w, r, t, c); }
        LoneChild(r, c);
      }
    }
    forall s | s in r.timers ensures TimerOk(r, s) {
      OtherOwner(w, s, d);
      TimerSame(w, r, s);
    }
  }

  /** A child in the table that owns nothing. */
  lemma LoneChild(r: World, c: Ref)
    requires c in r.children && r.children[c].refs == 1 && r.children[c].data.Payload? && r.children[c].timer.None?
    requires InTable(r, c) != Owns(r, c)
    ensures ChildOk(r, c)
  {
  }

  lemma NoneOwned(w: World, r: World, t: Ref, c: Ref)
    requires Counted(w) && t in w.timers && w.timers[t].owner == c && r.timers == w.timers - {t}
    ensures !Owns(r, c)
  {
  }

  lemma NoOtherTimer(w: World, t: Ref, c: Ref)
    requires Counted(w) && t in w.timers && w.timers[t].owner == c && !OwnerHolds(w, t)
    ensures w.children[c].timer.None?
  {
    assert TimerOk(w, t) && ChildOk(w, c);
  }

  /** A timer that is watched by d and owned by c is no other child's. */
  lemma WatchesOther(w: World, b: Ref, d: Ref, t: Ref)
    requires Counted(w) && b in w.children && b != d && t in w.timers && b != w.timers[t].owner
    requires d in w.children && w.children[d].data == Watched(t)
    ensures w.children[b].timer != Some(t) && w.children[b].data != Watched(t)
  {
    assert ChildOk(w, b) && ChildOk(w, d);
  }

  lemma ChildCounted(w: World, fd: nat)
    requires Counted(w) && fd in w.table && w.children[w.table[fd]].data.Payload? && w.children[w.table[fd]].timer.None?
    ensures Counted(RemoveEntry(w, fd))
  {
    hide RemoveEntry, ChildOk, TimerOk, Owns;
    ChildWithoutTimer(w, fd);
    var c, r := w.table[fd], RemoveEntry(w, fd);
    forall b | b in r.children ensures ChildOk(r, b) {
      OwnsSame(w, r, b);
      if b != c { ChildSame(w, r, b); } else { LoneChild(r, c); }
    }
    forall s | s in r.timers ensures TimerOk(r, s) {
      OwnerLives(w, s, c);
      TimerSame(w, r, s);
    }
  }

  lemma OwnerLives(w: World, s: Ref, c: Ref)
    requires s in w.timers && TimerOk(w, s)
    ensures w.timers[s].owner in w.children && w.children[w.timers[s].owner].data.Payload?
    ensures !Owns(w, c) ==> w.timers[s].owner != c
  {
  }

  lemma HolderCounted(w: World, fd: nat)
    requires Counted(w) && fd in w.table && w.children[w.table[fd]].data.Payload? && w.children[w.table[fd]].timer.Some?
    ensures Counted(RemoveEntry(w, fd))
  {
    hide RemoveEntry, ChildOk, TimerOk, Owns;
    HolderFacts(w, fd);
    ChildWithTimer(w, fd);
    var c, r := w.table[fd], RemoveEntry(w, fd);
    var t := w.children[c].timer.value;
    forall b | b in r.children ensures ChildOk(r, b) {
      OwnsSame(w, r, b);
      if b != c {
        TimerOfOne(w, b, c, t);
        ChildSame(w, r, b);
      } else {
        assert Owns(r, c) by { assert Owns(w, c) by { OwnsIt(w, t); } }
        LoneChild(r, c);
      }
    }
    forall s | s in r.timers ensures TimerOk(r, s) {
      OwnerLives(w, s, c);
      if s != t { TimerSame(w, r, s); } else { LoneTimer(r, t); }
    }
  }

  lemma OwnsIt(w: World, t: Ref)
    requires t in w.timers
    ensures Owns(w, w.timers[t].owner)
  {
  }

  /** A timer held by c is held by no other child; if its watcher is gone, no child watches it. */
  lemma TimerOfOne(w: World, b: Ref, c: Ref, t: Ref)
    requires Counted(w) && b in w.children && b != c && t in w.timers && w.timers[t].owner == c
    ensures w.children[b].timer != Some(t) && (w.children[b].data == Watched(t) ==> WatcherAlive(w, t))
  {
    assert ChildOk(w, b);
  }

  /** Whatever entry leaves the table, and in whatever order: the counts stay right. */
  lemma RemoveCounted(w: World, fd: nat)
    requires Counted(w) && fd in w.table
    ensures Counted(RemoveEntry(w, fd))
  {
    hide Counted, RemoveEntry;
    var c := w.table[fd];
    TabledIsLive(w, fd);
    if w.children[c].data.Watched? {
      if OwnerHolds(w, w.children[c].data.timer) { WatcherFirstCounted(w, fd); } else { WatcherLastCounted(w, fd); }
    } else if w.children[c].timer.Some? {
      HolderCounted(w, fd);
    } else {
      ChildCounted(w, fd);
    }
  }

  lemma TabledIsLive(w: World, fd: nat)
    requires Counted(w) && fd in w.table
    ensures w.table[fd] in w.children
  {
  }

  // ---- Every payload object once ----

  lemma PayloadsKept(w: World, r: World)
    requires Once(w) && r.freed == w.freed
    requires forall c :: c in r.children && r.children[c].data.Payload? ==> c in w.children && r.children[c].data == w.children[c].data
    requires forall c :: c in w.children && w.children[c].data.Payload? ==> c in r.children && r.children[c].data == w.children[c].data
    ensures Once(r) && Conserves(w, r)
  {
    forall id ensures Live(r, id) <==> Live(w, id) {
      if Live(w, id) { var c :| Carries(w, c, id); assert Carries(r, c, id); }
      if Live(r, id) { var c :| Carries(r, c, id); assert Carries(w, c, id); }
    }
    assert forall c, id :: Carries(r, c, id) ==> Carries(w, c, id);
  }

  lemma PayloadFreed(w: World, r: World, x: Ref)
    requires Once(w) && x in w.children && w.children[x].data.Payload? && r.freed == w.freed + [w.children[x].data.id]
    requires forall c :: c in r.children && r.children[c].data.Payload? ==>
               c != x && c in w.children && r.children[c].data == w.children[c].data
    requires forall c :: c in w.children && c != x && w.children[c].data.Payload? ==>
               c in r.children && r.children[c].data == w.children[c].data
    ensures Once(r) && Conserves(w, r)
  {
    assert Carries(w, x, w.children[x].data.id);
    assert forall c, id :: Carries(r, c, id) ==> Carries(w, c, id);
    forall id ensures Live(w, id) || id in w.freed <==> Live(r, id) || id in r.freed {
      if Live(w, id) {
        var c :| Carries(w, c, id);
        assert c != x ==> Carries(r, c, id);
      }
      if Live(r, id) { var c :| Carries(r, c, id); }
    }
  }

  lemma RemoveOnce(w: World, fd: nat)
    requires Counted(w) && Once(w) && fd in w.table
    ensures Once(RemoveEntry(w, fd)) && Conserves(w, RemoveEntry(w, fd))
  {
    hide RemoveEntry, Counted, Once, Conserves;
    TabledIsLive(w, fd);
    var c, r := w.table[fd], RemoveEntry(w, fd);
    if w.children[c].data.Watched? {
      var t := w.children[c].data.timer;
      WatcherFacts(w, fd);
      if OwnerHolds(w, t) { WatcherFirst(w, fd); } else { WatcherLast(w, fd); }
      if OwnerHolds(w, t) || InTable(w, w.timers[t].owner) { PayloadsKept(w, r); } else { PayloadFreed(w, r, w.timers[t].owner); }
    } else if w.children[c].timer.Some? {
      HolderFacts(w, fd);
      ChildWithTimer(w, fd);
      if WatcherAlive(w, w.children[c].timer.value) { PayloadsKept(w, r); } else { PayloadFreed(w, r, c); }
    } else {
      ChildWithoutTimer(w, fd);
      if Owns(w, c) { PayloadsKept(w, r); } else { PayloadFreed(w, r, c); }
    }
  }

  lemma RemoveEntryTable(w: World, fd: nat)
    requires Counted(w)
    ensures RemoveEntry(w, fd).table == w.table - {fd}
  {
    hide RemoveEntry, Counted;
    if fd in w.table {
      TabledIsLive(w, fd);
      var c := w.table[fd];
      if w.children[c].data.Watched? {
        WatcherFacts(w, fd);
        if OwnerHolds(w, w.children[c].data.timer) { WatcherFirst(w, fd); } else { WatcherLast(w, fd); }
      } else if w.children[c].timer.Some? {
        ChildWithTimer(w, fd);
      } else {
        ChildWithoutTimer(w, fd);
      }
    } else {
      assert w.table - {fd} == w.table;
      RemoveAbsent(w, fd);
    }
  }

  lemma RemoveAbsent(w: World, fd: nat)
    requires fd !in w.table
    ensures RemoveEntry(w, fd) == w
  {
  }

  // ---- The whole table ----

  /** The entries leave the table in some order. */
  function DestroyAll(w: World, order: seq<nat>): World {
    if order == [] then w else RemoveEntry(DestroyAll(w, order[..|order| - 1]), order[|order| - 1])
  }

  lemma {:induction false} DestroySome(w: World, order: seq<nat>)
    requires Counted(w) && Once(w)
    ensures var r := DestroyAll(w, order);
            Counted(r) && Once(r) && Conserves(w, r) && forall fd :: fd in r.table <==> fd in w.table && fd !in order
  {
    hide RemoveEntry, Counted, Once;
    if order != [] {
      var n := |order| - 1;
      var mid := DestroyAll(w, order[..n]);
      DestroySome(w, order[..n]);
      RemoveEntryTable(mid, order[n]);
      if order[n] in mid.table {
        RemoveCounted(mid, order[n]);
        RemoveOnce(mid, order[n]);
      } else {
        RemoveAbsent(mid, order[n]);
      }
      assert order == order[..n] + [order[n]];
    }
  }

  /** Without entries there is no holder, so nothing is left. */
  lemma NothingLeft(w: World)
    requires Counted(w) && w.table == map[]
    ensures w.children == map[] && w.timers == map[] && !w.dangling
  {
    if t :| t in w.timers {
      assert false;
    }
    assert w.timers.Keys == {};
    if c :| c in w.children {
      assert false;
    }
    assert w.children.Keys == {};
  }

  /** Destroying the table, in whatever order its entries come, frees every child and every timer
      and destroys every payload object exactly once; nothing is touched after it was freed. */
  lemma DestroyFreesAll(w: World, order: seq<nat>)
    requires Counted(w) && Once(w) && forall fd :: fd in w.table ==> fd in order
    ensures var r := DestroyAll(w, order);
            r.children == map[] && r.timers == map[] && r.table == map[] && !r.dangling &&
            (forall id :: id in r.freed <==> Live(w, id) || id in w.freed) &&
            (forall i, j :: 0 <= i < j < |r.freed| ==> r.freed[i] != r.freed[j])
  {
    hide DestroyAll;
    var r := DestroyAll(w, order);
    DestroySome(w, order);
    assert r.table.Keys == {};
    NothingLeft(r);
  }

  // ---- Registering and deregistering ----

  /** Between operations every child is in the table, and every timer is held and watched. */
  ghost predicate Complete(w: World) {
    Counted(w) && (forall c :: c in w.children ==> InTable(w, c)) &&
    (forall t :: t in w.timers ==> OwnerHolds(w, t) && WatcherAlive(w, t))
  }

  /** What deregistering removes: the child, and its timer with the child that watches it. */
  function Unregistered(w: World, fd: nat): World {
    if fd !in w.table || w.table[fd] !in w.children then w
    else
      var c := w.table[fd];
      var cell := w.children[c];
      if cell.timer.None? || cell.timer.value !in w.timers || w.timers[cell.timer.value].fd !in w.table then
        w.(children := w.children - {c}, table := w.table - {fd}, freed := w.freed + PayloadOf(cell))
      else
        var t := cell.timer.value;
        var tfd := w.timers[t].fd;
        w.(children := w.children - {c, w.table[tfd]}, timers := w.timers - {t}, table := w.table - {fd, tfd},
           freed := w.freed + PayloadOf(cell))
  }

  function PayloadOf(c: Child): seq<nat> {
    if c.data.Payload? then [c.data.id] else []
  }

  function Holders(w: World): set<Ref> {
    set c | c in w.children && w.children[c].timer.Some?
  }

  lemma DropShrinks(w: World, c: Ref)
    requires c in w.children && w.children[c].timer.Some?
    ensures |Holders(DropTimer(w, c))| < |Holders(w)|
  {
    hide TimerUnref;
    var r := DropTimer(w, c);
    assert Holders(r) <= Holders(w) - {c};
    SubsetSize(Holders(r), Holders(w) - {c});
  }

  lemma {:induction false} SubsetSize(a: set<Ref>, b: set<Ref>)
    requires a <= b
    ensures |a| <= |b|
  {
    if a != {} {
      var x :| x in a;
      SubsetSize(a - {x}, b - {x});
    }
  }

  /** _tgenio_deregister: let go of the timer, deregister its descriptor, remove the entry. */
  function Deregister(w: World, fd: nat): World
    decreases |Holders(w)|
  {
    if fd in w.table && w.table[fd] in w.children && w.children[w.table[fd]].timer.Some? &&
       w.children[w.table[fd]].timer.value in w.timers
    then
      var c := w.table[fd];
      DropShrinks(w, c);
      RemoveEntry(Deregister(DropTimer(w, c), w.timers[w.children[c].timer.value].fd), fd)
    else RemoveEntry(w, fd)
  }

  /** A child without a defer timer leaves alone. */
  lemma DeregisterPlain(w: World, fd: nat)
    requires Complete(w) && fd in w.table && w.children[w.table[fd]].timer.None? && w.children[w.table[fd]].data.Payload?
    ensures Deregister(w, fd) == Unregistered(w, fd) && Counted(Unregistered(w, fd))
  {
    hide RemoveEntry, ChildOk, TimerOk;
    ChildWithoutTimer(w, fd);
    RemoveCounted(w, fd);
    var c := w.table[fd];
    assert !Owns(w, c);
  }

  /** The owner without its timer, which only its watcher holds any more. */
  function Released(w: World, c: Ref, t: Ref): World
    requires c in w.children && t in w.timers
  {
    w.(timers := w.timers[t := w.timers[t].(refs := 1)], children := w.children[c := w.children[c].(timer := None)])
  }

  lemma ReleasedCounted(w: World, fd: nat)
    requires Complete(w) && fd in w.table && w.children[w.table[fd]].timer.Some?
    ensures var c := w.table[fd]; var t := w.children[c].timer.value;
            t in w.timers && DropTimer(w, c) == Released(w, c, t) && Counted(Released(w, c, t))
  {
    hide RemoveEntry, ChildOk, TimerOk, Owns, DropTimer;
    var c := w.table[fd];
    var t := w.children[c].timer.value;
    ChildKnown(w, c);
    HolderFacts(w, fd);
    DropHeldTimer(w, c, t);
    var r := Released(w, c, t);
    forall b | b in r.children ensures ChildOk(r, b) {
      OwnsSame(w, r, b);
      if b != c {
        TimerOfOne(w, b, c, t);
        ChildSame(w, r, b);
      } else {
        OwnsIt(w, t);
        SharedChild(r, c);
      }
    }
    forall s | s in r.timers ensures TimerOk(r, s) {
      OwnerLives(w, s, c);
      if s != t { TimerSame(w, r, s); } else { LoneTimer(r, t); }
    }
  }

  lemma ChildKnown(w: World, c: Ref)
    requires Counted(w) && c in w.children
    ensures w.children[c].timer.Some? ==> w.children[c].data.Payload? && w.children[c].timer.value in w.timers
  {
    assert ChildOk(w, c);
  }

  lemma SharedChild(r: World, c: Ref)
    requires c in r.children && r.children[c].refs == 2 && r.children[c].data.Payload? && r.children[c].timer.None?
    requires InTable(r, c) && Owns(r, c)
    ensures ChildOk(r, c)
  {
  }

  /** The owner after its timer and the timer's watcher are gone. */
  function Stripped(w: World, c: Ref, t: Ref, tfd: nat, d: Ref): World
    requires c in w.children
  {
    w.(children := (w.children - {d})[c := w.children[c].(refs := 1, timer := None)], timers := w.timers - {t}, table := w.table - {tfd})
  }

  lemma InnerDeregister(w: World, fd: nat)
    requires Complete(w) && fd in w.table && w.children[w.table[fd]].timer.Some?
    ensures var c := w.table[fd]; var t := w.children[c].timer.value;
            t in w.timers && w.timers[t].fd in w.table &&
            (var s := Stripped(w, c, t, w.timers[t].fd, w.table[w.timers[t].fd]);
             Deregister(DropTimer(w, c), w.timers[t].fd) == s && Counted(s) && !Owns(s, c))
  {
    hide RemoveEntry, ChildOk, TimerOk, Owns, DropTimer, Counted;
    TabledIsLive(w, fd);
    var c := w.table[fd];
    var t := w.children[c].timer.value;
    ReleasedCounted(w, fd);
    HolderParts(w, fd);
    var r, tfd := Released(w, c, t), w.timers[t].fd;
    WatcherFacts(r, tfd);
    WatcherLast(r, tfd);
    RemoveCounted(r, tfd);
    NoneOwned(r, RemoveEntry(r, tfd), t, c);
  }

  /** A child with a defer timer leaves together with the timer and the timer's watcher. */
  lemma DeregisterHolder(w: World, fd: nat)
    requires Complete(w) && fd in w.table && w.children[w.table[fd]].timer.Some?
    ensures Deregister(w, fd) == Unregistered(w, fd) && Counted(Unregistered(w, fd))
  {
    hide RemoveEntry, ChildOk, TimerOk, Owns, DropTimer, Counted, InTable, WatcherAlive, OwnerHolds;
    TabledIsLive(w, fd);
    var c := w.table[fd];
    var t := w.children[c].timer.value;
    HolderParts(w, fd);
    InnerDeregister(w, fd);
    var s := Stripped(w, c, t, w.timers[t].fd, w.table[w.timers[t].fd]);
    ChildWithoutTimer(s, fd);
    RemoveCounted(s, fd);
    assert RemoveEntry(s, fd) == Unregistered(w, fd);
  }

  lemma HolderParts(w: World, fd: nat)
    requires Complete(w) && fd in w.table && w.children[w.table[fd]].timer.Some?
    ensures var c := w.table[fd]; var t := w.children[c].timer.value;
            w.children[c].data.Payload? && w.children[c].fd == fd && w.children[c].refs == 2 && t in w.timers && w.timers[t].owner == c &&
            w.timers[t].fd in w.table && w.timers[t].fd != fd && w.table[w.timers[t].fd] in w.children &&
            w.children[w.table[w.timers[t].fd]].data == Watched(t) && w.children[w.table[w.timers[t].fd]].timer.None? &&
            w.timers[t].refs == 2
  {
    var c := w.table[fd];
    var t := w.children[c].timer.value;
    ChildKnown(w, c);
    HolderFacts(w, fd);
    ChildKnown(w, w.table[w.timers[t].fd]);
  }

  /** Deregistering a child removes it, its defer timer and the timer's watcher, destroys its payload
      object, and touches nothing else. */
  lemma DeregisterExact(w: World, fd: nat)
    requires Complete(w) && Once(w) && fd in w.table && w.children[w.table[fd]].data.Payload?
    ensures var r, c := Deregister(w, fd), w.table[fd];
            Complete(r) && Once(r) && Conserves(w, r) && fd !in r.table && c !in r.children &&
            r.freed == w.freed + [w.children[c].data.id]
    ensures Deregister(w, fd) == Unregistered(w, fd)
  {
    hide Counted, Deregister, ChildOk, TimerOk, Once, Conserves, Complete;
    CompleteTable(w, fd);
    if w.children[w.table[fd]].timer.Some? {
      HolderParts(w, fd);
      DeregisterHolder(w, fd);
    } else {
      DeregisterPlain(w, fd);
    }
    UnregisteredComplete(w, fd);
    PayloadFreed(w, Unregistered(w, fd), w.table[fd]);
  }

  lemma CompleteTable(w: World, fd: nat)
    requires Complete(w) && fd in w.table
    ensures w.table[fd] in w.children
  {
  }

  lemma UnregisteredComplete(w: World, fd: nat)
    requires Complete(w) && fd in w.table && w.children[w.table[fd]].data.Payload? && Counted(Unregistered(w, fd))
    ensures Complete(Unregistered(w, fd))
  {
    hide Counted, ChildOk, TimerOk;
    TabledIsLive(w, fd);
    var c, r := w.table[fd], Unregistered(w, fd);
    if w.children[c].timer.Some? {
      HolderParts(w, fd);
      OthersStay(w, r, c, w.children[c].timer.value);
    } else {
      NoTimerOf(w, c);
    }
    TablePlaces(w, fd);
  }

  /** Different entries are different children. */
  lemma TablePlaces(w: World, fd: nat)
    requires Counted(w)
    ensures forall f :: f in w.table && f != fd && fd in w.table ==> w.table[f] != w.table[fd]
  {
  }

  lemma NoTimerOf(w: World, c: Ref)
    requires Complete(w) && c in w.children && w.children[c].timer.None?
    ensures forall t :: t in w.timers ==> w.timers[t].owner != c && (w.children[c].data.Payload? ==> w.table[w.timers[t].fd] != c)
  {
  }

  lemma OthersStay(w: World, r: World, c: Ref, t: Ref)
    requires Complete(w) && t in w.timers && w.timers[t].owner == c
    ensures forall s :: s in w.timers && s != t ==>
              w.timers[s].owner != c && w.timers[s].fd != w.timers[t].fd && w.table[w.timers[s].fd] != c &&
              w.table[w.timers[s].fd] != w.table[w.timers[t].fd] && w.timers[s].owner != w.table[w.timers[t].fd]
  {
    forall s | s in w.timers && s != t
      ensures w.timers[s].owner != c && w.timers[s].fd != w.timers[t].fd && w.table[w.timers[s].fd] != c &&
              w.table[w.timers[s].fd] != w.table[w.timers[t].fd] && w.timers[s].owner != w.table[w.timers[t].fd]
    {
      assert TimerOk(w, s) && TimerOk(w, t);
    }
  }

  // ---- Growing ----

  /** tgenio_register of a new payload object on a free descriptor; c is a fresh address. */
  function Added(w: World, fd: nat, data: Data, c: Ref): World {
    w.(children := w.children[c := Child(1, fd, None, data)], table := w.table[fd := c])
  }

  /** _tgenio_setDeferTimer of a child that has none yet: the timer holds the child, the child and
      the table's new entry hold the timer. */
  function Timed(w: World, c: Ref, t: Ref, tfd: nat, d: Ref): World
    requires c in w.children
  {
    var cell := w.children[c].(refs := w.children[c].refs + 1, timer := Some(t));
    Added(w.(children := w.children[c := cell], timers := w.timers[t := Timer(2, tfd, c)]), tfd, Watched(t), d)
  }

  lemma AddedComplete(w: World, fd: nat, id: nat, c: Ref)
    requires Complete(w) && Once(w) && fd !in w.table && c !in w.children && !Live(w, id) && id !in w.freed
    ensures var r := Added(w, fd, Payload(id), c); Complete(r) && Once(r)
  {
    hide ChildOk, TimerOk, Owns;
    var r := Added(w, fd, Payload(id), c);
    forall b | b in r.children ensures ChildOk(r, b) {
      OwnsSame(w, r, b);
      if b != c {
        ChildSame(w, r, b);
      } else {
        assert !Owns(r, c) by { NotOwned(w, r, c); }
        LoneChild(r, c);
      }
    }
    forall s | s in r.timers ensures TimerOk(r, s) {
      OwnerLives(w, s, c);
      TimerSame(w, r, s);
    }
    assert forall b, i :: Carries(r, b, i) && b != c ==> Carries(w, b, i);
  }

  lemma NotOwned(w: World, r: World, c: Ref)
    requires Counted(w) && c !in w.children && r.timers == w.timers
    ensures !Owns(r, c)
  {
  }

  lemma TimedComplete(w: World, c: Ref, t: Ref, tfd: nat, d: Ref)
    requires Complete(w) && Once(w) && c in w.children && w.children[c].data.Payload? && w.children[c].timer.None?
    requires t !in w.timers && tfd !in w.table && d !in w.children
    ensures var r := Timed(w, c, t, tfd, d); Complete(r) && Once(r) && Conserves(w, r)
  {
    hide ChildOk, TimerOk, Owns, Once, Conserves, Counted;
    var r := Timed(w, c, t, tfd, d);
    TimedCounted(w, c, t, tfd, d);
    PayloadsKept(w, r);
  }

  lemma TimedCounted(w: World, c: Ref, t: Ref, tfd: nat, d: Ref)
    requires Complete(w) && c in w.children && w.children[c].data.Payload? && w.children[c].timer.None?
    requires t !in w.timers && tfd !in w.table && d !in w.children
    ensures Counted(Timed(w, c, t, tfd, d))
  {
    hide ChildOk, TimerOk, Owns;
    var r := Timed(w, c, t, tfd, d);
    Unowned(w, c);
    forall b | b in r.children ensures ChildOk(r, b) {
      if b == c {
        OwnsIt(r, t);
        HolderChild(r, c, t);
      } else if b == d {
        WatcherChild(r, d, t);
      } else {
        OwnsOther(w, r, t, b);
        KnownTimers(w, b);
        ChildSame(w, r, b);
      }
    }
    forall s | s in r.timers ensures TimerOk(r, s) {
      if s == t { FullTimer(r, t); } else { OwnerLives(w, s, c); TimerSame(w, r, s); }
    }
  }

  lemma Unowned(w: World, c: Ref)
    requires Complete(w) && c in w.children && w.children[c].data.Payload? && w.children[c].timer.None?
    ensures w.children[c].refs == 1 && forall t :: t in w.timers ==> w.timers[t].owner != c
  {
    NoTimerOf(w, c);
    assert ChildOk(w, c);
  }

  lemma KnownTimers(w: World, b: Ref)
    requires Counted(w) && b in w.children
    ensures w.children[b].timer.Some? ==> w.children[b].timer.value in w.timers
    ensures w.children[b].data.Watched? ==> w.children[b].data.timer in w.timers
  {
    assert ChildOk(w, b);
  }

  lemma OwnsOther(w: World, r: World, t: Ref, b: Ref)
    requires t !in w.timers && t in r.timers && r.timers[t].owner != b && r.timers == w.timers[t := r.timers[t]]
    ensures Owns(r, b) == Owns(w, b)
  {
    if Owns(w, b) {
      var s :| s in w.timers && w.timers[s].owner == b;
      assert r.timers[s].owner == b;
    }
  }

  lemma HolderChild(r: World, c: Ref, t: Ref)
    requires c in r.children && r.children[c].refs == 2 && r.children[c].data.Payload? && r.children[c].timer == Some(t)
    requires InTable(r, c) && Owns(r, c) && t in r.timers && r.timers[t].owner == c
    ensures ChildOk(r, c)
  {
  }

  lemma WatcherChild(r: World, d: Ref, t: Ref)
    requires d in r.children && r.children[d].refs == 1 && r.children[d].data == Watched(t) && r.children[d].timer.None?
    requires InTable(r, d) && t in r.timers && r.timers[t].fd == r.children[d].fd
    ensures ChildOk(r, d)
  {
  }

  lemma FullTimer(r: World, t: Ref)
    requires t in r.timers && r.timers[t].refs == 2 && OwnerHolds(r, t) && WatcherAlive(r, t)
    requires r.timers[t].owner in r.children && r.children[r.timers[t].owner].data.Payload?
    ensures TimerOk(r, t)
  {
  }

  /** The I/O module: its table of children and the memory behind it. */
  class Io {
    var children: map<Ref, Child>
    var timers: map<Ref, Timer>
    var table: map<nat, Ref>
    var freed: seq<nat>
    var dangling: bool

    constructor ()
      ensures Valid() && children == map[] && freed == []
    {
      children, timers, table, freed, dangling := map[], map[], map[], [], false;
    }

    ghost predicate Valid()
      reads this
    {
      Complete(State()) && Once(State())
    }

    ghost function State(): World
      reads this
    {
      World(children, timers, table, freed, dangling)
    }

    method UnrefChild(c: Ref)
      modifies this
      ensures State() == ChildUnref(old(State()), c)
      decreases |children| + |timers|
    {
      if c !in children {
        dangling := true;
        return;
      }
      var cell := children[c].(refs := children[c].refs - 1);
      if cell.refs > 0 {
        children := children[c := cell];
        return;
      }
      children := children - {c};
      match cell.data {
        case Payload(id) => freed := freed + [id];
        case Watched(t) => UnrefTimer(t);
      }
      if cell.timer.Some? {
        UnrefTimer(cell.timer.value);
      }
    }

    method UnrefTimer(t: Ref)
      modifies this
      ensures State() == TimerUnref(old(State()), t)
      decreases |children| + |timers|
    {
      if t !in timers {
        dangling := true;
        return;
      }
      var cell := timers[t].(refs := timers[t].refs - 1);
      if cell.refs > 0 {
        timers := timers[t := cell];
      } else {
        timers := timers - {t};
        UnrefChild(cell.owner);
      }
    }

    method LetGoOfTimer(c: Ref)
      modifies this
      ensures State() == DropTimer(old(State()), c)
    {
      if c !in children {
        dangling := true;
      } else if children[c].timer.Some? {
        UnrefTimer(children[c].timer.value);
        if c in children {
          children := children[c := children[c].(timer := None)];
        } else {
          dangling := true;
        }
      }
    }

    /** g_hash_table_remove with the table's destructor. */
    method Remove(fd: nat)
      modifies this
      ensures State() == RemoveEntry(old(State()), fd)
    {
      if fd in table {
        var c := table[fd];
        table := table - {fd};
        LetGoOfTimer(c);
        UnrefChild(c);
      }
    }

    /** A child's defer timer goes before it does. */
    method Withdraw(fd: nat)
      modifies this
      ensures State() == Deregister(old(State()), fd)
      decreases |Holders(State())|
    {
      if fd in table && table[fd] in children && children[table[fd]].timer.Some? && children[table[fd]].timer.value in timers {
        var c := table[fd];
        var tfd := timers[children[c].timer.value].fd;
        DropShrinks(State(), c);
        LetGoOfTimer(c);
        Withdraw(tfd);
      }
      Remove(fd);
    }

    /** tgenio_deregister for a child: it goes with its defer timer and that timer's watcher, its payload
        object is destroyed once, and nothing else is touched. */
    method DeregisterDescriptor(fd: nat)
      requires Valid() && (fd in table ==> table[fd] in children && children[table[fd]].data.Payload?)
      modifies this
      ensures Valid() && fd !in table
      ensures fd !in old(table) ==> State() == old(State())
      ensures fd in old(table) ==>
                State() == Unregistered(old(State()), fd) && old(table[fd]) !in children &&
                freed == old(freed) + [old(children[table[fd]].data.id)]
    {
      hide Complete, Once, Deregister, Unregistered, Conserves;
      if fd in table {
        DeregisterExact(State(), fd);
        Withdraw(fd);
      }
    }

    method NewRef(used: set<Ref>) returns (a: Ref)
      ensures a !in used
    {
      ghost var m := Bound(used);
      assert m !in used;
      a :| a !in used;
    }

    /** An address that is not in use. */
    method Allocate() returns (a: Ref)
      ensures a !in children && a !in timers
    {
      a := NewRef(children.Keys + timers.Keys);
    }

    /** tgenio_register: an old child on the descriptor makes room. */
    method Register(fd: nat, id: nat) returns (c: Ref)
      requires Valid() && !Live(State(), id) && id !in freed
      requires fd in table ==> table[fd] in children && children[table[fd]].data.Payload?
      modifies this
      ensures Valid() && c !in old(children) && fd in table && table[fd] == c && children[c] == Child(1, fd, None, Payload(id))
      ensures fd !in old(table) ==> State() == Added(old(State()), fd, Payload(id), c)
      ensures fd in old(table) ==> State() == Added(Deregister(old(State()), fd), fd, Payload(id), c)
    {
      c := Allocate();
      if fd in table {
        DeregisterExact(State(), fd);
        FreshStays(State(), fd, id, c);
        DeregisterDescriptor(fd);
      }
      AddedComplete(State(), fd, id, c);
      children, table := children[c := Child(1, fd, None, Payload(id))], table[fd := c];
    }

    /** _tgenio_setDeferTimer: a child gets at most one timer, on a new descriptor. */
    method SetDeferTimer(fd: nat, tfd: nat) returns (ghost t: Ref, ghost d: Ref)
      requires Valid() && fd in table && table[fd] in children && children[table[fd]].data.Payload? && tfd !in table
      modifies this
      ensures Valid()
      ensures old(children[table[fd]].timer.Some?) ==> State() == old(State())
      ensures old(children[table[fd]].timer.None?) ==> State() == Timed(old(State()), old(table[fd]), t, tfd, d)
    {
      hide Complete, Once;
      var c := table[fd];
      t, d := 0, 0;
      if children[c].timer.None? {
        var timer := Allocate();
        var watcher := NewRef(children.Keys + timers.Keys + {timer});
        TimedComplete(State(), c, timer, tfd, watcher);
        t, d := timer, watcher;
        children := children[c := children[c].(refs := children[c].refs + 1, timer := Some(timer))];
        timers := timers[timer := Timer(2, tfd, c)];
        children, table := children[watcher := Child(1, tfd, None, Watched(timer))], table[tfd := watcher];
      }
    }

    /** _tgenio_free: the table is destroyed, in an order nobody chooses. */
    method Destroy()
      requires Valid()
      modifies this
      ensures children == map[] && timers == map[] && table == map[] && !dangling
      ensures forall id :: id in freed <==> old(Live(State(), id)) || id in old(freed)
      ensures forall i, j :: 0 <= i < j < |freed| ==> freed[i] != freed[j]
    {
      hide Counted, Conserves;
      ghost var before := State();
      ConservesSelf(before);
      while table != map[]
        invariant Counted(State()) && Once(State()) && Conserves(before, State())
        decreases table.Keys
      {
        var fd: nat :| fd in table;
        RemoveCounted(State(), fd);
        RemoveOnce(State(), fd);
        RemoveEntryTable(State(), fd);
        ConservesOn(before, State(), RemoveEntry(State(), fd));
        Remove(fd);
      }
      NothingLeft(State());
      AllFreed(before, State());
    }
  }

  /** There is always an address that is not in use. */
  lemma {:induction false} Bound(s: set<Ref>) returns (m: Ref)
    ensures forall x :: x in s ==> x < m
  {
    if s == {} {
      m := 0;
    } else {
      var x :| x in s;
      var n := Bound(s - {x});
      m := if n > x then n else x + 1;
      forall y | y in s ensures y < m {
        if y != x { assert y in s - {x}; }
      }
    }
  }

  lemma ConservesSelf(w: World)
    ensures Conserves(w, w)
  {
  }

  lemma ConservesOn(u: World, v: World, w: World)
    requires Conserves(u, v) && Conserves(v, w)
    ensures Conserves(u, w)
  {
  }

  lemma AllFreed(w: World, r: World)
    requires Conserves(w, r) && r.children == map[]
    ensures forall id :: id in r.freed <==> Live(w, id) || id in w.freed
  {
    assert forall id :: !Live(r, id);
  }

  lemma FreshStays(w: World, fd: nat, id: nat, c: Ref)
    requires Complete(w) && Once(w) && fd in w.table && w.children[w.table[fd]].data.Payload?
    requires c !in w.children && !Live(w, id) && id !in w.freed
    ensures var r := Deregister(w, fd); Complete(r) && Once(r) && fd !in r.table && c !in r.children && !Live(r, id) && id !in r.freed
  {
    hide Complete, Deregister, Once;
    DeregisterExact(w, fd);
  }
}
