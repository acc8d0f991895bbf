/**
  The reader-writer lock of one file (src/server/file_locks.c), at the grain of
  its mutex and condition-variable operations, for any number of threads.
  `order` is `order_mtx`, `mtx` is `file_mtx`; `access_cond` is the set of
  sleeping threads. `lost` counts the readers that left without unlocking.
 */
module RwLock {
  import opened Basics

  type Tid = nat

  /** Where a thread is inside the lock; `w` tells writers from readers. */
  datatype Pc =
    | Out
    | WantOrder(w: bool)   // about to take order_mtx
    | WantFile(w: bool)    // about to take file_mtx
    | Test(w: bool)        // at the loop test, holding both mutexes
    | Asleep(w: bool)      // in pthread_cond_wait
    | Woken(w: bool)       // leaving pthread_cond_wait, needs file_mtx again
    | DropOrder(w: bool)   // counted in; about to release order_mtx
    | DropFile(w: bool)    // about to release file_mtx
    | Holds(w: bool)       // the lock call has returned
    | UnWant(w: bool)      // unlock called, about to take file_mtx
    | UnCount(w: bool)     // about to count out and signal
    | UnDrop(w: bool)      // about to release file_mtx

  datatype Lock = Lock(
    order: Option<Tid>, mtx: Option<Tid>,
    nReaders: int, nWriters: int,
    pc: map<Tid, Pc>, lost: nat)

  const FREE := Lock(None, None, 0, 0, map[], 0)

  /** What a thread may do: call, run one step, wake for no reason, call unlock, or walk away. */
  datatype Action = Acquire(w: bool) | Advance(woken: set<Tid>) | Spurious | Release | Abandon

  function At(l: Lock, t: Tid): Pc {
    if t in l.pc then l.pc[t] else Out
  }

  function Put(l: Lock, t: Tid, p: Pc): Lock {
    l.(pc := l.pc[t := p])
  }

  function Sleepers(l: Lock): set<Tid> {
    set u | u in l.pc && l.pc[u].Asleep?
  }

  /** The condition of the wait loops. */
  predicate Blocked(l: Lock, w: bool) {
    l.nWriters > 0 || (w && l.nReaders > 0)
  }

  /** Whether counting out signals: a writer always, a reader when it is the last. */
  predicate Signals(l: Lock, w: bool) {
    w || l.nReaders == 1
  }

  /** `pthread_cond_signal` wakes some sleeper, if there is one. */
  predicate MayWake(l: Lock, w: bool, woken: set<Tid>) {
    && woken <= Sleepers(l)
    && (if Signals(l, w) then Sleepers(l) != {} ==> woken != {} else woken == {})
  }

  function Wake(l: Lock, woken: set<Tid>): Lock {
    l.(pc := map u | u in l.pc :: if u in woken && l.pc[u].Asleep? then Woken(l.pc[u].w) else l.pc[u])
  }

  function Count(l: Lock, w: bool, d: int): Lock {
    if w then l.(nWriters := l.nWriters + d) else l.(nReaders := l.nReaders + d)
  }

  predicate Enabled(l: Lock, t: Tid, a: Action) {
    var p := At(l, t);
    match a
    case Acquire(_) => p == Out
    case Release => p.Holds?
    case Abandon => p == Holds(false)
    case Spurious => p.Asleep?
    case Advance(woken) =>
      match p
      case Out => false
      case Holds(_) => false
      case Asleep(_) => false
      case WantOrder(_) => l.order == None && woken == {}
      case WantFile(_) => l.mtx == None && woken == {}
      case Woken(_) => l.mtx == None && woken == {}
      case UnWant(_) => l.mtx == None && woken == {}
      case UnCount(w) => MayWake(l, w, woken)
      case _ => woken == {}
  }

  function Run(l: Lock, t: Tid, woken: set<Tid>): Lock
    requires Enabled(l, t, Advance(woken))
  {
    match At(l, t)
    case WantOrder(w) => Put(l, t, WantFile(w)).(order := Some(t))
    case WantFile(w) => Put(l, t, Test(w)).(mtx := Some(t))
    case Woken(w) => Put(l, t, Test(w)).(mtx := Some(t))
    case Test(w) =>
      if Blocked(l, w) then Put(l, t, Asleep(w)).(mtx := None)
      else Count(Put(l, t, DropOrder(w)), w, 1)
    case DropOrder(w) => Put(l, t, DropFile(w)).(order := None)
    case DropFile(w) => Put(l, t, Holds(w)).(mtx := None)
    case UnWant(w) => Put(l, t, UnCount(w)).(mtx := Some(t))
    case UnCount(w) => Count(Put(Wake(l, woken), t, UnDrop(w)), w, -1)
    case UnDrop(w) => Put(l, t, Out).(mtx := None)
  }

  function Do(l: Lock, t: Tid, a: Action): Lock
    requires Enabled(l, t, a)
  {
    match a
    case Acquire(w) => Put(l, t, WantOrder(w))
    case Release => Put(l, t, UnWant(At(l, t).w))
    case Abandon => Put(l, t, Out).(lost := l.lost + 1)
    case Spurious => Put(l, t, Woken(At(l, t).w))
    case Advance(woken) => Run(l, t, woken)
  }

  // ---------------------------------------------------------------- invariant

  predicate HasOrder(p: Pc) {
    p.WantFile? || p.Test? || p.Asleep? || p.Woken? || p.DropOrder?
  }

  predicate HasFile(p: Pc) {
    p.Test? || p.DropOrder? || p.DropFile? || p.UnCount? || p.UnDrop?
  }

  /** Counted in and not yet counted out. */
  predicate CountsAs(p: Pc, w: bool) {
    p == DropOrder(w) || p == DropFile(w) || p == Holds(w) || p == UnWant(w) || p == UnCount(w)
  }

  /** Inside a lock or unlock call. */
  predicate InCall(p: Pc) {
    !p.Out? && !p.Holds?
  }

  function Counted(l: Lock, w: bool): set<Tid> {
    set u | u in l.pc && CountsAs(l.pc[u], w)
  }

  ghost predicate MutexesOk(l: Lock) {
    && (forall t: Tid :: l.order == Some(t) <==> HasOrder(At(l, t)))
    && (forall t: Tid :: l.mtx == Some(t) <==> HasFile(At(l, t)))
  }

  ghost predicate CountsOk(l: Lock) {
    && l.nReaders == |Counted(l, false)| + l.lost
    && l.nWriters == |Counted(l, true)|
    && l.nWriters <= 1
    && (l.nWriters == 1 ==> l.nReaders == 0)
  }

  /** An unsignalled sleeper has a reason to sleep. */
  ghost predicate SleepOk(l: Lock) {
    forall t: Tid | At(l, t).Asleep? :: Blocked(l, At(l, t).w)
  }

  /** A thread that counted out keeps conflicting threads away until it lets go of `mtx`. */
  ghost predicate DropOk(l: Lock) {
    forall t: Tid | At(l, t).UnDrop? :: !Blocked(l, At(l, t).w)
  }

  ghost predicate Inv(l: Lock) {
    MutexesOk(l) && CountsOk(l) && SleepOk(l) && DropOk(l)
  }

  lemma PutCounted(l: Lock, t: Tid, p: Pc, w: bool)
    ensures Counted(Put(l, t, p), w) == if CountsAs(p, w) then Counted(l, w) + {t} else Counted(l, w) - {t}
  {
  }

  lemma WakeCounted(l: Lock, woken: set<Tid>, w: bool)
    ensures Counted(Wake(l, woken), w) == Counted(l, w)
  {
  }

  /** Only the mutex holder sleeps or is about to: at most one thread sleeps. */
  lemma OneSleeper(l: Lock, t: Tid, u: Tid)
    requires MutexesOk(l) && At(l, t).Asleep? && At(l, u).Asleep?
    ensures t == u
  {
    assert HasOrder(At(l, t)) && HasOrder(At(l, u));
  }

  /** A step moves nobody else, except that a signalled sleeper starts waking. */
  lemma OthersStand(l: Lock, t: Tid, a: Action, u: Tid)
    requires Enabled(l, t, a) && u != t
    ensures At(Do(l, t, a), u) == At(l, u)
         || (At(l, u).Asleep? && At(Do(l, t, a), u) == Woken(At(l, u).w))
  {
  }

  lemma StepKeepsMutexes(l: Lock, t: Tid, a: Action)
    requires MutexesOk(l) && Enabled(l, t, a)
    ensures MutexesOk(Do(l, t, a))
  {
    assert l.order == Some(t) <==> HasOrder(At(l, t));
    assert l.mtx == Some(t) <==> HasFile(At(l, t));
    var l' := Do(l, t, a);
    forall u: Tid
      ensures (l'.order == Some(u) <==> HasOrder(At(l', u))) && (l'.mtx == Some(u) <==> HasFile(At(l', u)))
    {
      if u != t {
        OthersStand(l, t, a, u);
        assert l.order == Some(u) <==> HasOrder(At(l, u));
        assert l.mtx == Some(u) <==> HasFile(At(l, u));
      }
    }
  }

  lemma MemberOfCounted(l: Lock, t: Tid, w: bool)
    ensures t in Counted(l, w) <==> CountsAs(At(l, t), w)
  {
  }

  function Wakes(a: Action): set<Tid> {
    if a.Advance? then a.woken else {}
  }

  lemma PcAfter(l: Lock, t: Tid, a: Action)
    requires Enabled(l, t, a)
    ensures Do(l, t, a).pc == Wake(l, Wakes(a)).pc[t := At(Do(l, t, a), t)]
  {
    assert Wake(l, {}).pc == l.pc;
  }

  /** A step changes the counted threads by the acting thread at most. */
  lemma StepCounted(l: Lock, t: Tid, a: Action, w: bool)
    requires Enabled(l, t, a)
    ensures Counted(Do(l, t, a), w) ==
            if CountsAs(At(Do(l, t, a), t), w) then Counted(l, w) + {t} else Counted(l, w) - {t}
    ensures |Counted(Do(l, t, a), w)| ==
            |Counted(l, w)| + Bit(CountsAs(At(Do(l, t, a), t), w)) - Bit(CountsAs(At(l, t), w))
  {
    PcAfter(l, t, a);
    WakeCounted(l, Wakes(a), w);
    PutCounted(Wake(l, Wakes(a)), t, At(Do(l, t, a), t), w);
    MemberOfCounted(l, t, w);
  }

  /** The counters move together with the counted threads. */
  lemma StepCounters(l: Lock, t: Tid, a: Action)
    requires Enabled(l, t, a)
    ensures var l' := Do(l, t, a);
            && l'.nWriters - l.nWriters == Bit(CountsAs(At(l', t), true)) - Bit(CountsAs(At(l, t), true))
            && l'.nReaders - l.nReaders ==
                 Bit(CountsAs(At(l', t), false)) - Bit(CountsAs(At(l, t), false)) + l'.lost - l.lost
  {
  }

  /** Nobody is counted in past a writer, and no writer past anybody. */
  lemma CountedInAlone(l: Lock, t: Tid, a: Action)
    requires Enabled(l, t, a)
    ensures var l' := Do(l, t, a);
            && (l'.nWriters > l.nWriters ==>
                  l.nWriters <= 0 && l.nReaders <= 0 && l'.nReaders == l.nReaders && l'.nWriters == l.nWriters + 1)
            && (l'.nReaders > l.nReaders ==> l.nWriters <= 0 && l'.nWriters == l.nWriters)
  {
  }

  lemma StepKeepsCounts(l: Lock, t: Tid, a: Action)
    requires CountsOk(l) && Enabled(l, t, a)
    ensures CountsOk(Do(l, t, a))
  {
    StepCounted(l, t, a, true);
    StepCounted(l, t, a, false);
    StepCounters(l, t, a);
    CountedInAlone(l, t, a);
    MemberOfCounted(l, t, false);
  }

  /** The one sleeper, if any, is signalled whenever its reason to sleep goes away. */
  lemma StepKeepsSleep(l: Lock, t: Tid, a: Action)
    requires Inv(l) && Enabled(l, t, a)
    ensures SleepOk(Do(l, t, a))
  {
    var l' := Do(l, t, a);
    MemberOfCounted(l, t, true);
    MemberOfCounted(l, t, false);
    forall u: Tid | At(l', u).Asleep? ensures Blocked(l', At(l', u).w) {
      if u != t {
        OthersStand(l, t, a, u);
        if At(l, t).UnCount? && a.Advance? {
          SleeperIsSignalled(l, t, a, u);
        }
      }
    }
  }

  lemma SleeperIsSignalled(l: Lock, t: Tid, a: Action, u: Tid)
    requires Inv(l) && Enabled(l, t, a)
    requires u != t && At(l, u).Asleep? && At(Do(l, t, a), u) == At(l, u)
    requires At(l, t).UnCount? && a.Advance?
    ensures !Signals(l, At(l, t).w)
  {
    if a.woken != {} {
      var v :| v in a.woken;
      OneSleeper(l, u, v);
    }
  }

  lemma StepKeepsDrop(l: Lock, t: Tid, a: Action)
    requires Inv(l) && Enabled(l, t, a)
    ensures DropOk(Do(l, t, a))
  {
    var l' := Do(l, t, a);
    MemberOfCounted(l, t, true);
    MemberOfCounted(l, t, false);
    CountedIsAlone(l, t);
    forall u: Tid | At(l', u).UnDrop? ensures !Blocked(l', At(l', u).w) {
      if u != t {
        OthersStand(l, t, a, u);
        assert l.mtx == Some(u) <==> HasFile(At(l, u));
        assert l.mtx == Some(t) <==> HasFile(At(l, t));
      }
    }
  }

  lemma CountedIsAlone(l: Lock, t: Tid)
    requires CountsOk(l)
    ensures CountsAs(At(l, t), true) ==> l.nWriters == 1 && l.nReaders == 0
    ensures CountsAs(At(l, t), false) ==> l.nReaders >= 1 && l.nWriters == 0
  {
    MemberOfCounted(l, t, true);
    MemberOfCounted(l, t, false);
  }

  /** The lock's invariant holds whatever its users do. */
  lemma StepKeepsInv(l: Lock, t: Tid, a: Action)
    requires Inv(l) && Enabled(l, t, a)
    ensures Inv(Do(l, t, a))
  {
    StepKeepsMutexes(l, t, a);
    StepKeepsCounts(l, t, a);
    StepKeepsSleep(l, t, a);
    StepKeepsDrop(l, t, a);
  }

  /** Somebody asking for the lock, not yet counted in. */
  predicate Asks(p: Pc) {
    p.WantOrder? || p.WantFile? || p.Test? || p.Asleep? || p.Woken?
  }

  /** Beside a thread that holds the lock as a writer, others are out of it or still asking. */
  lemma BesideWriter(l: Lock, t: Tid, u: Tid)
    requires Inv(l) && At(l, t) == Holds(true) && u != t
    ensures At(l, u).Out? || Asks(At(l, u))
    ensures l.lost == 0
  {
    ExclusiveWriter(l, t, u);
  }

  /** Taken by the one thread that knows it, a new lock ends up like this. */
  function TakenBy(t: Tid): Lock {
    Lock(None, None, 0, 1, map[t := Holds(true)], 0)
  }

  // ------------------------------------------------------------------ progress

  /** The wake-up choice that always works: everybody when a signal is due. */
  function Choice(l: Lock, t: Tid): set<Tid> {
    if At(l, t).UnCount? && Signals(l, At(l, t).w) then Sleepers(l) else {}
  }

  /** `t` is inside a call and can run its next step. */
  predicate CanAdvance(l: Lock, t: Tid) {
    Enabled(l, t, Advance(Choice(l, t)))
  }

  /** A thread held up inside a call is asleep or waits for a mutex that someone in a call holds. */
  lemma WhoBlocks(l: Lock, t: Tid) returns (u: Tid)
    requires Inv(l) && InCall(At(l, t)) && !At(l, t).Asleep? && !CanAdvance(l, t)
    ensures u != t
    ensures if At(l, t).WantOrder? then l.order == Some(u) && HasOrder(At(l, u))
            else HasFile(At(l, u)) && CanAdvance(l, u)
  {
    assert l.order == Some(t) <==> HasOrder(At(l, t));
    assert l.mtx == Some(t) <==> HasFile(At(l, t));
    u := if At(l, t).WantOrder? then l.order.value else l.mtx.value;
    assert l.order == Some(u) <==> HasOrder(At(l, u));
    assert l.mtx == Some(u) <==> HasFile(At(l, u));
  }

  /** A sleeper sleeps because of a thread that is counted in, or of a lost reader. */
  lemma WhoIsAwaited(l: Lock, t: Tid) returns (u: Option<Tid>)
    requires Inv(l) && At(l, t).Asleep?
    ensures u.None? ==> l.lost > 0 && At(l, t).w
    ensures u.Some? ==> exists w :: CountsAs(At(l, u.value), w) && (w || At(l, t).w)
  {
    if l.nWriters > 0 {
      var v :| v in Counted(l, true);
      u := Some(v);
    } else if Counted(l, false) != {} {
      var v :| v in Counted(l, false);
      u := Some(v);
    } else {
      u := None;
    }
  }

  // ---------------------------------------------------------------- whole runs

  /** Any run of the lock: who did what, and the state it left. */
  datatype History = Fresh | Did(before: History, who: Tid, act: Action, after: Lock)

  function Now(h: History): Lock {
    if h.Fresh? then FREE else h.after
  }

  predicate Legal(h: History) {
    (h.Did? ==>
       && Legal(h.before)
       && Enabled(Now(h.before), h.who, h.act)
       && h.after == Do(Now(h.before), h.who, h.act)) == true
  }

  predicate SoloBy(h: History, t: Tid) {
    h.Did? ==> h.who == t && SoloBy(h.before, t)
  }

  function Then(h: History, t: Tid, a: Action): (h': History)
    requires Legal(h) && Enabled(Now(h), t, a)
    ensures Legal(h') && Now(h') == Do(Now(h), t, a) && (SoloBy(h, t) ==> SoloBy(h', t))
    ensures h'.Did? && h'.before == h && h'.who == t
  {
    Did(h, t, a, Do(Now(h), t, a))
  }

  /** `file_writer_lock` on a lock nobody else can reach never waits and ends in `TakenBy`. */
  lemma UncontendedLock(t: Tid) returns (h: History)
    ensures Legal(h) && SoloBy(h, t) && Now(h) == TakenBy(t)
  {
    h := Then(Fresh, t, Acquire(true));
    h := Then(h, t, Advance({}));
    h := Then(h, t, Advance({}));
    h := Then(h, t, Advance({}));
    h := Then(h, t, Advance({}));
    h := Then(h, t, Advance({}));
  }

  lemma {:induction false} HistoryKeepsInv(h: History)
    requires Legal(h)
    ensures Inv(Now(h))
  {
    if h.Did? {
      HistoryKeepsInv(h.before);
      StepKeepsInv(Now(h.before), h.who, h.act);
    }
  }

  /** Some run of the lock leads to `l`. */
  ghost predicate Reachable(l: Lock) {
    exists h :: Legal(h) && Now(h) == l
  }

  lemma ReachableInv(l: Lock)
    requires Reachable(l)
    ensures Inv(l)
  {
    var h :| Legal(h) && Now(h) == l;
    HistoryKeepsInv(h);
  }

  lemma StepReachable(l: Lock, t: Tid, a: Action)
    requires Reachable(l) && Enabled(l, t, a)
    ensures Reachable(Do(l, t, a))
  {
    var h :| Legal(h) && Now(h) == l;
    var h' := Then(h, t, a);
  }

  lemma TakenByReachable(t: Tid)
    ensures Reachable(TakenBy(t))
  {
    var h := UncontendedLock(t);
  }

  /** A writer is alone: no other thread reads or writes, and no reader was lost. */
  lemma WriterIsAlone(h: History, t: Tid, u: Tid)
    requires Legal(h) && At(Now(h), t) == Holds(true) && u != t
    ensures !CountsAs(At(Now(h), u), true) && !CountsAs(At(Now(h), u), false)
    ensures Now(h).lost == 0 && Now(h).nReaders == 0 && Now(h).nWriters == 1
  {
    HistoryKeepsInv(h);
    ExclusiveWriter(Now(h), t, u);
  }

  lemma ExclusiveWriter(l: Lock, t: Tid, u: Tid)
    requires CountsOk(l) && CountsAs(At(l, t), true) && u != t
    ensures !CountsAs(At(l, u), true) && !CountsAs(At(l, u), false)
    ensures l.lost == 0 && l.nReaders == 0 && l.nWriters == 1
  {
    MemberOfCounted(l, t, true);
    MemberOfCounted(l, u, true);
    MemberOfCounted(l, u, false);
    if u in Counted(l, true) {
      TwoInSet(Counted(l, true), t, u);
    }
  }

  lemma TwoInSet(s: set<Tid>, t: Tid, u: Tid)
    requires t in s && u in s && t != u
    ensures |s| >= 2
  {
    assert |s - {t}| == |s| - 1;
    assert u in s - {t};
  }

  /** No wake-up is ever lost: an unsignalled sleeper must still wait, and it is the only sleeper. */
  lemma NoLostWakeUp(h: History, t: Tid)
    requires Legal(h) && At(Now(h), t).Asleep?
    ensures Now(h).nWriters > 0 || (At(Now(h), t).w && Now(h).nReaders > 0)
    ensures Sleepers(Now(h)) == {t}
  {
    HistoryKeepsInv(h);
    forall u | u in Sleepers(Now(h)) ensures u == t {
      OneSleeper(Now(h), t, u);
    }
  }

  /** What a thread waits for: no writer, and for a writer no reader either. */
  predicate MayGoIn(l: Lock, w: bool) {
    l.nWriters == 0 && (w ==> l.nReaders == 0)
  }

  /** No signal is wasted: whoever is woken by one could go in at that moment. */
  lemma SignalsAreUseful(l: Lock, t: Tid, woken: set<Tid>, u: Tid)
    requires Inv(l) && Enabled(l, t, Advance(woken)) && u in woken
    ensures At(l, u).Asleep? && MayGoIn(Do(l, t, Advance(woken)), At(l, u).w)
  {
    CountedIsAlone(l, t);
  }

  /** Nobody woke without being signalled. */
  predicate NoSpurious(h: History) {
    h.Did? ==> !h.act.Spurious? && NoSpurious(h.before)
  }

  lemma WokenStays(l: Lock, t: Tid, a: Action, u: Tid)
    requires Inv(l) && Enabled(l, t, a) && !a.Spurious? && At(Do(l, t, a), u).Woken?
    requires At(l, u).Woken? ==> MayGoIn(l, At(l, u).w)
    ensures MayGoIn(Do(l, t, a), At(Do(l, t, a), u).w)
  {
    if u != t {
      OthersStand(l, t, a, u);
      if At(l, u).Woken? {
        assert l.order == Some(u) <==> HasOrder(At(l, u));
        assert l.order == Some(t) <==> HasOrder(At(l, t));
        StepCounters(l, t, a);
        StepKeepsCounts(l, t, a);
      } else {
        SignalsAreUseful(l, t, a.woken, u);
      }
    }
  }

  /** Without spurious wake-ups a thread sleeps once at most: from when it is woken on it can go in. */
  lemma {:induction false} WokenGoesIn(h: History, t: Tid)
    requires Legal(h) && NoSpurious(h) && At(Now(h), t).Woken?
    ensures MayGoIn(Now(h), At(Now(h), t).w)
  {
    HistoryKeepsInv(h.before);
    if At(Now(h.before), t).Woken? {
      WokenGoesIn(h.before, t);
    }
    WokenStays(Now(h.before), h.who, h.act, t);
  }

  /** `h` goes on from `h0` by steps of `t` alone. */
  predicate AloneSince(h: History, h0: History, t: Tid) {
    h == h0 || (h.Did? && h.who == t && AloneSince(h.before, h0, t))
  }

  /** Everybody is out of the lock or reads. */
  ghost predicate OnlyReaders(l: Lock) {
    forall u: Tid :: At(l, u).Out? || At(l, u) == Holds(false)
  }

  lemma ReadersAreFree(l: Lock)
    requires Inv(l) && OnlyReaders(l)
    ensures l.order == None && l.mtx == None && l.nWriters == 0
  {
    assert l.order.Some? ==> HasOrder(At(l, l.order.value));
    assert l.mtx.Some? ==> HasFile(At(l, l.mtx.value));
    forall u: Tid ensures u !in Counted(l, true) {
      MemberOfCounted(l, u, true);
    }
    assert Counted(l, true) == {};
  }

  /** Readers share: beside any number of readers another one gets in without waiting. */
  lemma ReadersShare(h0: History, t: Tid) returns (h: History)
    requires Legal(h0) && OnlyReaders(Now(h0)) && At(Now(h0), t).Out?
    ensures Legal(h) && AloneSince(h, h0, t) && At(Now(h), t) == Holds(false)
    ensures forall u: Tid | u != t :: At(Now(h), u) == At(Now(h0), u)
    ensures Now(h).nReaders == Now(h0).nReaders + 1
  {
    HistoryKeepsInv(h0);
    ReadersAreFree(Now(h0));
    h := ReaderTests(h0, t);
    h := MoreAlone(h, h0, t, Advance({}));
    h := MoreAlone(h, h0, t, Advance({}));
    h := MoreAlone(h, h0, t, Advance({}));
  }

  /** On a lock with both mutexes free a reader gets to the test of its wait loop. */
  lemma ReaderTests(h0: History, t: Tid) returns (h: History)
    requires Legal(h0) && Now(h0).order == None && Now(h0).mtx == None && At(Now(h0), t).Out?
    ensures Legal(h) && AloneSince(h, h0, t) && At(Now(h), t) == Test(false)
    ensures forall u: Tid | u != t :: At(Now(h), u) == At(Now(h0), u)
    ensures Now(h).nReaders == Now(h0).nReaders && Now(h).nWriters == Now(h0).nWriters
  {
    h := MoreAlone(h0, h0, t, Acquire(false));
    h := MoreAlone(h, h0, t, Advance({}));
    h := MoreAlone(h, h0, t, Advance({}));
  }

  lemma MoreAlone(h: History, h0: History, t: Tid, a: Action) returns (h': History)
    requires Legal(h) && AloneSince(h, h0, t) && Enabled(Now(h), t, a)
    ensures Legal(h') && AloneSince(h', h0, t) && Now(h') == Do(Now(h), t, a)
  {
    h' := Then(h, t, a);
  }

  /** Past `order_mtx` and not yet counted in. */
  predicate Waits(p: Pc) {
    p.WantFile? || p.Test? || p.Asleep? || p.Woken?
  }

  /** `t` has been waiting in every state of `h` since `h0`. */
  predicate WaitsSince(h: History, h0: History, t: Tid) {
    (Waits(At(Now(h), t)) && (h == h0 || (h.Did? && WaitsSince(h.before, h0, t)))) == true
  }

  /** This step counts its thread out. */
  predicate CountsOut(l: Lock, t: Tid, a: Action) {
    At(l, t).UnCount? && a.Advance?
  }

  /** How many threads counted out between `h0` and `h`. */
  function Unlocks(h: History, h0: History): int {
    if h == h0 || h.Fresh? then 0
    else Unlocks(h.before, h0) + Bit(CountsOut(Now(h.before), h.who, h.act))
  }

  function Inside(l: Lock): int {
    l.nReaders + l.nWriters
  }

  lemma NobodyInside(l: Lock, t: Tid)
    requires Inv(l)
    ensures Inside(l) >= 0
    ensures Inside(l) == 0 ==> l.nReaders == 0 && l.nWriters == 0 && !At(l, t).Asleep?
  {
    assert l.nReaders >= 0 && l.nWriters >= 0;
  }

  lemma StepKeepsOut(l: Lock, t: Tid, u: Tid, a: Action, w: bool)
    requires Inv(l) && Enabled(l, u, a)
    requires Waits(At(l, t)) && Waits(At(Do(l, u, a), t))
    ensures Counted(Do(l, u, a), w) <= Counted(l, w)
    ensures Inside(Do(l, u, a)) == Inside(l) - Bit(CountsOut(l, u, a))
  {
    StepCounted(l, u, a, w);
    MemberOfCounted(l, u, w);
    assert l.order == Some(t) <==> HasOrder(At(l, t));
    assert l.order == Some(u) <==> HasOrder(At(l, u));
  }

  lemma LastStepKeepsOut(h: History, t: Tid, w: bool)
    requires Legal(h) && h.Did? && Waits(At(Now(h.before), t)) && Waits(At(Now(h), t))
    ensures Counted(Now(h), w) <= Counted(Now(h.before), w)
    ensures Inside(Now(h)) == Inside(Now(h.before)) - Bit(CountsOut(Now(h.before), h.who, h.act))
  {
    HistoryKeepsInv(h.before);
    StepKeepsOut(Now(h.before), t, h.who, h.act, w);
  }

  /** Nobody overtakes the waiter: everyone still inside was there when the wait began. */
  lemma {:induction false} NoOvertaking(h: History, h0: History, t: Tid, w: bool)
    requires Legal(h) && WaitsSince(h, h0, t)
    ensures Counted(Now(h), w) <= Counted(Now(h0), w)
  {
    if h != h0 {
      NoOvertaking(h.before, h0, t, w);
      LastStepKeepsOut(h, t, w);
    }
  }

  lemma {:induction false} WaitCountsDown(h: History, h0: History, t: Tid)
    requires Legal(h) && WaitsSince(h, h0, t)
    ensures Inside(Now(h)) == Inside(Now(h0)) - Unlocks(h, h0)
  {
    if h != h0 {
      WaitCountsDown(h.before, h0, t);
      LastStepKeepsOut(h, t, true);
    }
  }

  /** The wait is bounded by the holders at its start: after that many unlocks nothing blocks the waiter. */
  lemma {:induction false} WaitIsBounded(h: History, h0: History, t: Tid)
    requires Legal(h) && WaitsSince(h, h0, t)
    ensures Unlocks(h, h0) <= Inside(Now(h0))
    ensures Unlocks(h, h0) == Inside(Now(h0)) ==> Now(h).nReaders == 0 && Now(h).nWriters == 0 && !At(Now(h), t).Asleep?
  {
    var inside, unlocks := WaitNumbers(h, h0, t);
  }

  /** The holders when the wait began, and the unlocks since. */
  lemma WaitNumbers(h: History, h0: History, t: Tid) returns (inside: int, unlocks: int)
    requires Legal(h) && WaitsSince(h, h0, t)
    ensures inside == Inside(Now(h0)) && unlocks == Unlocks(h, h0)
    ensures unlocks <= inside && (unlocks == inside ==>
              Now(h).nReaders == 0 && Now(h).nWriters == 0 && !At(Now(h), t).Asleep?)
  {
    inside, unlocks := Inside(Now(h0)), Unlocks(h, h0);
    WaitCountsDown(h, h0, t);
    InsideNow(h, t);
  }

  lemma InsideNow(h: History, t: Tid)
    requires Legal(h)
    ensures Inside(Now(h)) >= 0
    ensures Inside(Now(h)) == 0 ==> Now(h).nReaders == 0 && Now(h).nWriters == 0 && !At(Now(h), t).Asleep?
  {
    HistoryKeepsInv(h);
    NobodyInside(Now(h), t);
  }

  // ---------------------------------------------------------------------- a measure

  /**
    How much is left of a lock or unlock call. A signal lengthens the sleeper's
    call by less than it shortens the signaller's.
   */
  function Rank(p: Pc): nat {
    match p
    case WantOrder(_) => 6
    case WantFile(_) => 5
    case Woken(_) => 5
    case Test(_) => 4
    case Asleep(_) => 3
    case DropOrder(_) => 2
    case DropFile(_) => 1
    case UnWant(_) => 5
    case UnCount(_) => 4
    case UnDrop(_) => 1
    case _ => 0
  }

  /** Every step inside a call uses some of that up, whoever it wakes: `v` if anybody. */
  lemma RankFalls(l: Lock, t: Tid, woken: set<Tid>) returns (v: Tid)
    requires MutexesOk(l) && Enabled(l, t, Advance(woken))
    ensures v != t
    ensures var l' := Do(l, t, Advance(woken));
            && Rank(At(l', t)) < Rank(At(l, t))
            && Rank(At(l', t)) + Rank(At(l', v)) < Rank(At(l, t)) + Rank(At(l, v))
            && (forall u: Tid | u != t && u != v :: Rank(At(l', u)) <= Rank(At(l, u)))
  {
    var a := Advance(woken);
    v := if w :| w in woken && w != t then w else t + 1;
    forall u: Tid | u != t ensures At(Do(l, t, a), u) == At(l, u) || (At(l, u).Asleep? && u in woken) {
      OthersStand(l, t, a, u);
    }
    forall u: Tid | u != t && u != v ensures Rank(At(Do(l, t, a), u)) <= Rank(At(l, u)) {
      if At(Do(l, t, a), u) != At(l, u) {
        OneSleeper(l, u, v);
      }
    }
  }
}
