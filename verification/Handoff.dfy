/**
  How clients are handed around between the main loop of src/server/server.c
  and the workers of src/server/workers.c while the server accepts connections:
  select set, request queue, worker, result pipe, and back or out.
 */
module Handoff {
  import opened Basics
  import opened StoreSpec
  import opened StoreRuns
  import E = Eviction

  /**
    A worker about to lock the queue, in `pthread_cond_wait`, leaving it, or serving
    a client; `done` is the code of the request once it has run.
   */
  datatype Worker = AtQueue | Waiting | Woken | Busy(fd: Fd, done: Option<int>)

  /** What a worker reports: go on listening to the client, or close it. */
  datatype Result = Result(fd: Fd, keep: bool)

  /**
    `watched` are the clients in the master select set, `ready` those of them the
    current pass has still to visit. `closing` is the client that the main thread
    has closed and the files have not yet forgotten. `pushed` and `popped` record
    the traffic of the request queue.
   */
  datatype Server = Server(
    conn: set<Fd>, closing: Option<Fd>, watched: set<Fd>, ready: set<Fd>,
    queue: seq<Fd>, workers: seq<Worker>, pipes: seq<seq<Result>>,
    store: State, pushed: seq<Fd>, popped: seq<Fd>)

  function Boot(n: nat): Server {
    Server({}, None, {}, {}, [], seq(n, _ => AtQueue), seq(n, _ => []), INITIAL, [], [])
  }

  /** How serving a client can end before or after its request has run. */
  datatype Outcome = HangUp | ReadError | UnknownOp | Replied(code: int, taken: bool)

  /** The result code a worker derives, up to what the main loop does with it. */
  predicate Keeps(o: Outcome) {
    o.Replied? && o.taken && o.code != SA_CLOSE && o.code != SA_ERROR
  }

  datatype Action =
    | Accept(fd: Fd)
    | Select(ready: set<Fd>)
    | Enqueue(fd: Fd, woken: set<nat>)
    | Collect(w: nat)
    | Forget(e: Event, store: State)
    | Look(w: nat)
    | Spurious(w: nat)
    | Pop(w: nat, junk: Fd)
    | Serve(w: nat, e: Event, store: State)
    | Report(w: nat, o: Outcome)

  /** Steps of the main loop; it does nothing else while it closes a client. */
  predicate ByMain(a: Action) {
    a.Accept? || a.Select? || a.Enqueue? || a.Collect?
  }

  function Asleep(ws: seq<Worker>): set<nat> {
    set w | 0 <= w < |ws| && ws[w].Waiting?
  }

  function Wake(ws: seq<Worker>, woken: set<nat>): seq<Worker> {
    seq(|ws|, i requires 0 <= i < |ws| => if i in woken && ws[i].Waiting? then Woken else ws[i])
  }

  /** `Pop` takes from an empty queue: `list_pop_front` fails and leaves the worker's variable as it is. */
  predicate PopsNothing(s: Server, a: Action) {
    a.Pop? && s.queue == []
  }

  /** A request that ran is reported with its own code, or as an error when its reply could not be sent. */
  predicate Reports(done: Option<int>, o: Outcome) {
    if done.Some? then o.Replied? && (o.code == done.value || o.code == SA_ERROR) else !Keeps(o)
  }

  ghost predicate Enabled(cfg: Config, s: Server, a: Action) {
    (ByMain(a) ==> s.closing == None)
    && match a
       case Accept(fd) => fd !in s.conn
       case Select(ready) => s.ready == {} && ready <= s.watched
       case Enqueue(fd, woken) =>
         fd in s.ready && woken <= Asleep(s.workers) && (Asleep(s.workers) != {} ==> woken != {})
       case Collect(w) => w < |s.pipes| && s.pipes[w] != []
       case Forget(e, store) =>
         s.closing.Some? && e.req == Disconnect(s.closing.value) && Next(cfg, s.store, e, store)
       case Look(w) => w < |s.workers| && s.workers[w].AtQueue?
       case Spurious(w) => w < |s.workers| && s.workers[w].Waiting?
       case Pop(w, _) => w < |s.workers| && s.workers[w].Woken?
       case Serve(w, e, store) =>
         && w < |s.workers| && s.workers[w].Busy? && s.workers[w].done == None
         && !e.req.Disconnect? && (Sender(e.req) == s.workers[w].fd || e.req.ReadN?)
         && Next(cfg, s.store, e, store)
       case Report(w, o) =>
         w < |s.workers| && w < |s.pipes| && s.workers[w].Busy? && Reports(s.workers[w].done, o)
  }

  function Take(s: Server, w: nat): Server
    requires w < |s.workers| && s.queue != []
  {
    s.(queue := s.queue[1..], workers := s.workers[w := Busy(s.queue[0], None)], popped := s.popped + [s.queue[0]])
  }

  ghost function Do(cfg: Config, s: Server, a: Action): Server
    requires Enabled(cfg, s, a)
  {
    match a
    case Accept(fd) => s.(conn := s.conn + {fd}, watched := s.watched + {fd})
    case Select(ready) => s.(ready := ready)
    case Enqueue(fd, woken) =>
      s.(watched := s.watched - {fd}, ready := s.ready - {fd}, queue := s.queue + [fd],
         workers := Wake(s.workers, woken), pushed := s.pushed + [fd])
    case Collect(w) =>
      var r := s.pipes[w][0];
      var s1 := s.(pipes := s.pipes[w := s.pipes[w][1..]]);
      if r.keep then s1.(watched := s.watched + {r.fd}) else s1.(conn := s.conn - {r.fd}, closing := Some(r.fd))
    case Forget(_, store) => s.(closing := None, store := store)
    case Look(w) => if s.queue == [] then s.(workers := s.workers[w := Waiting]) else Take(s, w)
    case Spurious(w) => s.(workers := s.workers[w := Woken])
    case Pop(w, junk) => if s.queue == [] then s.(workers := s.workers[w := Busy(junk, None)]) else Take(s, w)
    case Serve(w, e, store) =>
      s.(workers := s.workers[w := Busy(s.workers[w].fd, Some(e.reply.code))], store := store)
    case Report(w, o) =>
      s.(workers := s.workers[w := AtQueue],
         pipes := s.pipes[w := s.pipes[w] + [Result(s.workers[w].fd, Keeps(o))]])
  }

  // ----------------------------------------------------------------- where clients are

  predicate Serves(w: Worker, fd: Fd) {
    w.Busy? && w.fd == fd
  }

  /** How many of the workers serve `fd`. */
  function Serving(ws: seq<Worker>, fd: Fd): nat {
    if ws == [] then 0 else Serving(ws[..|ws|-1], fd) + Bit(Serves(ws[|ws|-1], fd))
  }

  /** How many of the results are about `fd`. */
  function About(rs: seq<Result>, fd: Fd): nat {
    if rs == [] then 0 else Bit(rs[0].fd == fd) + About(rs[1..], fd)
  }

  function Reported(ps: seq<seq<Result>>, fd: Fd): nat {
    if ps == [] then 0 else Reported(ps[..|ps|-1], fd) + About(ps[|ps|-1], fd)
  }

  /** In how many places a client is. */
  function Places(s: Server, fd: Fd): nat {
    Bit(fd in s.watched) + multiset(s.queue)[fd] + Serving(s.workers, fd) + Reported(s.pipes, fd)
  }

  /** Each connected client is in exactly one place, and nobody else is anywhere. */
  ghost predicate Owned(s: Server) {
    forall fd: Fd :: Places(s, fd) == Bit(fd in s.conn)
  }

  /** Connected clients, and the one being closed. */
  function Known(s: Server): set<int> {
    s.conn + (if s.closing.Some? then {s.closing.value} else {})
  }

  /** Files know connected clients only, but for the one being closed. */
  ghost predicate Rights(s: Server) {
    && OpenersIn(s.store, Known(s))
    && forall p | p in s.store.files && s.store.files[p].fdLock != NO_FD :: s.store.files[p].fdLock in Known(s)
  }

  ghost predicate OpenersIn(s: State, conn: set<int>) {
    forall p | p in s.files :: s.files[p].fdOpen <= conn
  }

  ghost predicate Inv(cfg: Config, s: Server) {
    && Owned(s) && s.ready <= s.watched && |s.pipes| == |s.workers|
    && Rights(s) && StoreSpec.Inv(cfg, s.store)
    && s.pushed == s.popped + s.queue
  }

  lemma {:induction false} ServingSet(ws: seq<Worker>, i: nat, w: Worker, fd: Fd)
    requires i < |ws|
    ensures Serving(ws[i := w], fd) + Bit(Serves(ws[i], fd)) == Serving(ws, fd) + Bit(Serves(w, fd))
  {
    var n := |ws| - 1;
    if i < n {
      ServingSet(ws[..n], i, w, fd);
      assert ws[i := w][..n] == ws[..n][i := w];
    } else {
      assert ws[i := w][..n] == ws[..n];
    }
  }

  lemma {:induction false} WakeServes(ws: seq<Worker>, woken: set<nat>, fd: Fd)
    ensures Serving(Wake(ws, woken), fd) == Serving(ws, fd)
  {
    if ws != [] {
      var n := |ws| - 1;
      WakeServes(ws[..n], woken, fd);
      assert Wake(ws, woken)[..n] == Wake(ws[..n], woken);
    }
  }

  lemma {:induction false} AboutAppend(rs: seq<Result>, r: Result, fd: Fd)
    ensures About(rs + [r], fd) == About(rs, fd) + Bit(r.fd == fd)
  {
    if rs == [] {
      assert [r][1..] == [];
    } else {
      AboutAppend(rs[1..], r, fd);
      assert (rs + [r])[1..] == rs[1..] + [r];
    }
  }

  lemma {:induction false} ReportedSet(ps: seq<seq<Result>>, i: nat, p: seq<Result>, fd: Fd)
    requires i < |ps|
    ensures Reported(ps[i := p], fd) + About(ps[i], fd) == Reported(ps, fd) + About(p, fd)
  {
    var n := |ps| - 1;
    if i < n {
      ReportedSet(ps[..n], i, p, fd);
      assert ps[i := p][..n] == ps[..n][i := p];
    } else {
      assert ps[i := p][..n] == ps[..n];
    }
  }

  lemma QueueTail(q: seq<Fd>, fd: Fd)
    requires q != []
    ensures multiset(q)[fd] == Bit(q[0] == fd) + multiset(q[1..])[fd]
  {
    assert q == [q[0]] + q[1..];
  }

  // ------------------------------------------------------------ ownership is conserved

  /** How a step changes the number of places a client is in. */
  function Gains(s: Server, a: Action, fd: Fd): int {
    match a
    case Accept(c) => Bit(c == fd)
    case Collect(w) =>
      if w < |s.pipes| && s.pipes[w] != [] && !s.pipes[w][0].keep && s.pipes[w][0].fd == fd then -1 else 0
    case Pop(_, junk) => if s.queue == [] then Bit(junk == fd) else 0
    case _ => 0
  }

  lemma TakeMoves(s: Server, w: nat, fd: Fd)
    requires w < |s.workers| && s.queue != [] && !s.workers[w].Busy?
    ensures Places(Take(s, w), fd) == Places(s, fd)
  {
    ServingSet(s.workers, w, Busy(s.queue[0], None), fd);
    QueueTail(s.queue, fd);
  }

  lemma CollectMoves(cfg: Config, s: Server, a: Action, fd: Fd)
    requires Owned(s) && a.Collect? && Enabled(cfg, s, a)
    ensures Places(Do(cfg, s, a), fd) == Places(s, fd) + Gains(s, a, fd)
  {
    ReportedSet(s.pipes, a.w, s.pipes[a.w][1..], fd);
    CollectedIsElsewhere(s, a.w);
  }

  lemma ReportMoves(cfg: Config, s: Server, a: Action, fd: Fd)
    requires a.Report? && Enabled(cfg, s, a)
    ensures Places(Do(cfg, s, a), fd) == Places(s, fd)
  {
    var r := Result(s.workers[a.w].fd, Keeps(a.o));
    ServingSet(s.workers, a.w, AtQueue, fd);
    AboutAppend(s.pipes[a.w], r, fd);
    ReportedSet(s.pipes, a.w, s.pipes[a.w] + [r], fd);
  }

  lemma StepMoves(cfg: Config, s: Server, a: Action, fd: Fd)
    requires Owned(s) && s.ready <= s.watched && Enabled(cfg, s, a)
    ensures Places(Do(cfg, s, a), fd) == Places(s, fd) + Gains(s, a, fd)
  {
    match a {
      case Accept(c) => assert Places(s, c) == Bit(c in s.conn);
      case Select(_) =>
      case Enqueue(c, woken) => WakeServes(s.workers, woken, fd);
      case Collect(_) => CollectMoves(cfg, s, a, fd);
      case Forget(_, _) =>
      case Look(w) =>
        if s.queue == [] {
          ServingSet(s.workers, w, Waiting, fd);
        } else {
          TakeMoves(s, w, fd);
        }
      case Spurious(w) => ServingSet(s.workers, w, Woken, fd);
      case Pop(w, junk) =>
        if s.queue == [] {
          ServingSet(s.workers, w, Busy(junk, None), fd);
        } else {
          TakeMoves(s, w, fd);
        }
      case Serve(w, e, _) => ServingSet(s.workers, w, Busy(s.workers[w].fd, Some(e.reply.code)), fd);
      case Report(_, _) => ReportMoves(cfg, s, a, fd);
    }
  }

  /** The client of a result in a pipe is connected and not watched. */
  lemma CollectedIsElsewhere(s: Server, w: nat)
    requires Owned(s) && w < |s.pipes| && s.pipes[w] != []
    ensures s.pipes[w][0].fd !in s.watched && s.pipes[w][0].fd in s.conn
  {
    var fd := s.pipes[w][0].fd;
    ReportedSet(s.pipes, w, [], fd);
    assert Places(s, fd) == Bit(fd in s.conn);
  }

  /** The places that a step gives to `fd` beyond the one that a connected client has. */
  function Strays(s: Server, a: Action, fd: Fd): nat {
    if PopsNothing(s, a) then Bit(a.junk == fd) else 0
  }

  lemma ConnectedMoves(cfg: Config, s: Server, a: Action, fd: Fd)
    requires Owned(s) && Enabled(cfg, s, a)
    ensures Bit(fd in Do(cfg, s, a).conn) + Strays(s, a, fd) == Bit(fd in s.conn) + Gains(s, a, fd)
  {
    if a.Collect? {
      CollectedIsElsewhere(s, a.w);
    }
  }

  lemma StepStrays(cfg: Config, s: Server, a: Action, fd: Fd)
    requires Owned(s) && s.ready <= s.watched && Enabled(cfg, s, a)
    ensures Places(Do(cfg, s, a), fd) == Bit(fd in Do(cfg, s, a).conn) + Strays(s, a, fd)
  {
    StepMoves(cfg, s, a, fd);
    ConnectedMoves(cfg, s, a, fd);
    assert Places(s, fd) == Bit(fd in s.conn);
  }

  /** A step keeps everybody in exactly one place if and only if it is not a pop from the empty queue. */
  lemma OwnershipIff(cfg: Config, s: Server, a: Action)
    requires Inv(cfg, s) && Enabled(cfg, s, a)
    ensures Owned(Do(cfg, s, a)) <==> !PopsNothing(s, a)
  {
    var s' := Do(cfg, s, a);
    forall fd: Fd ensures Places(s', fd) == Bit(fd in s'.conn) + Strays(s, a, fd) {
      StepStrays(cfg, s, a, fd);
    }
    if PopsNothing(s, a) {
      assert Places(s', a.junk) == Bit(a.junk in s'.conn) + 1;
    }
  }

  // ---------------------------------------------------------- what becomes of a client

  /**
    A worker's report: the client is kept exactly when it took the answer and the
    code is neither the error nor the closed connection. Hanging up, a failed read
    of the request and an unknown operation lose it.
   */
  lemma Reporting(cfg: Config, s: Server, w: nat, o: Outcome)
    requires Enabled(cfg, s, Report(w, o))
    ensures var s' := Do(cfg, s, Report(w, o));
            && s'.workers == s.workers[w := AtQueue] && |s'.pipes| == |s.pipes| && |s'.pipes[w]| == |s.pipes[w]| + 1
            && (forall v | 0 <= v < |s.pipes| && v != w :: s'.pipes[v] == s.pipes[v])
            && s'.pipes[w][..|s.pipes[w]|] == s.pipes[w]
            && var r := s'.pipes[w][|s.pipes[w]|];
               && r.fd == s.workers[w].fd
               && (r.keep <==> o.Replied? && o.taken && o.code != -1 && o.code != -2)
               && (s.workers[w].done == None ==> !r.keep)
    ensures var s' := Do(cfg, s, Report(w, o));
            s'.conn == s.conn && s'.watched == s.watched && s'.closing == s.closing && s'.queue == s.queue
  {
  }

  /** The main loop takes the oldest result of a pipe: it listens to the client again, or closes it. */
  lemma Collecting(cfg: Config, s: Server, w: nat)
    requires Owned(s) && Enabled(cfg, s, Collect(w))
    ensures var s', fd := Do(cfg, s, Collect(w)), s.pipes[w][0].fd;
            && s'.pipes == s.pipes[w := s.pipes[w][1..]]
            && (if s.pipes[w][0].keep
                then fd in s'.watched && fd in s'.conn && s'.closing == None
                else fd !in s'.watched && fd !in s'.conn && s'.closing == Some(fd))
            && forall c: Fd | c != fd :: (c in s'.watched <==> c in s.watched) && (c in s'.conn <==> c in s.conn)
  {
    CollectedIsElsewhere(s, w);
  }

  /** A client that is ready stays so until its request is queued: a pass of the main loop skips nobody. */
  lemma ReadyIsQueued(cfg: Config, s: Server, a: Action, fd: Fd)
    requires Enabled(cfg, s, a) && fd in s.ready && fd !in Do(cfg, s, a).ready
    ensures a.Enqueue? && a.fd == fd && Do(cfg, s, a).queue == s.queue + [fd]
  {
  }

  /** Some worker is not asleep. */
  predicate SomeAwake(ws: seq<Worker>) {
    exists w :: 0 <= w < |ws| && !ws[w].Waiting?
  }

  lemma StepStrandsNobody(cfg: Config, s: Server, a: Action)
    requires s.queue != [] && s.workers != [] ==> SomeAwake(s.workers)
    requires Enabled(cfg, s, a)
    ensures var s' := Do(cfg, s, a); s'.queue != [] && s'.workers != [] ==> SomeAwake(s'.workers)
  {
    var s' := Do(cfg, s, a);
    match a {
      case Enqueue(fd, woken) =>
        if s.workers != [] {
          if Asleep(s.workers) != {} {
            var w :| w in woken;
            assert !s'.workers[w].Waiting?;
          } else {
            assert 0 !in Asleep(s.workers);
            assert !s'.workers[0].Waiting?;
          }
        }
      case Look(w) => assert s.queue != [] ==> s'.workers[w].Busy?;
      case Spurious(w) => assert s'.workers[w].Woken?;
      case Pop(w, _) => assert s'.workers[w].Busy?;
      case Serve(w, _, _) => assert s'.workers[w].Busy?;
      case Report(w, _) => assert s'.workers[w].AtQueue?;
      case _ =>
    }
  }

  // ------------------------------------------------------------------ rights of clients

  /** A file that a request makes is known to its sender only. */
  lemma NewFileRights(cfg: Config, s: State, e: Event, s': State, p: Path)
    requires StoreSpec.Inv(cfg, s) && Next(cfg, s, e, s') && p !in s.files && p in s'.files
    ensures e.req.Open? && s'.files[p].fdOpen == {e.req.fd}
  {
  }

  lemma RequestRights(cfg: Config, s: State, e: Event, s': State, conn: set<int>)
    requires StoreSpec.Inv(cfg, s) && Next(cfg, s, e, s') && OpenersIn(s, conn)
    requires !e.req.ReadN? ==> e.req.fd in conn
    ensures OpenersIn(s', conn)
  {
    forall p | p in s'.files ensures s'.files[p].fdOpen <= conn {
      FileRights(cfg, s, e, s', p);
    }
  }

  lemma FileRights(cfg: Config, s: State, e: Event, s': State, p: Path)
    requires StoreSpec.Inv(cfg, s) && Next(cfg, s, e, s') && p in s'.files
    ensures p in s.files || e.req.Open?
    ensures s'.files[p].fdOpen <=
            (if p in s.files then s.files[p].fdOpen else {}) + (if e.req.ReadN? then {} else {e.req.fd})
  {
    if p !in s.files {
      NewFileRights(cfg, s, e, s', p);
    } else {
      ChangesAreRightful(cfg, s, e, s', p);
      forall fd | fd in s'.files[p].fdOpen && fd !in s.files[p].fdOpen ensures !e.req.ReadN? && fd == e.req.fd {
        assert fd in s'.files[p].fdOpen - s.files[p].fdOpen;
      }
    }
  }

  /** A lock holder is an opener, so openers are all that matters. */
  lemma RightsAre(cfg: Config, s: Server)
    requires StoreSpec.Inv(cfg, s.store) && OpenersIn(s.store, Known(s))
    ensures Rights(s)
  {
    forall p | p in s.store.files && s.store.files[p].fdLock != NO_FD ensures s.store.files[p].fdLock in Known(s) {
      assert FileOk(p, s.store.files[p]);
    }
  }

  lemma StepKeepsOpeners(cfg: Config, s: Server, a: Action)
    requires Inv(cfg, s) && Enabled(cfg, s, a)
    ensures StoreSpec.Inv(cfg, Do(cfg, s, a).store) && OpenersIn(Do(cfg, s, a).store, Known(Do(cfg, s, a)))
  {
    if a.Serve? {
      ServedIsNowhereElse(s, a.w, a.w);
      E.NextKeepsInv(cfg, s.store, a.e, a.store);
      RequestRights(cfg, s.store, a.e, a.store, Known(s));
    } else if a.Forget? {
      E.NextKeepsInv(cfg, s.store, a.e, a.store);
      DisconnectRights(cfg, s.store, a.e, a.store, Known(s));
    }
  }

  lemma StepKeepsRights(cfg: Config, s: Server, a: Action)
    requires Inv(cfg, s) && Enabled(cfg, s, a)
    ensures StoreSpec.Inv(cfg, Do(cfg, s, a).store) && Rights(Do(cfg, s, a))
  {
    StepKeepsOpeners(cfg, s, a);
    RightsAre(cfg, Do(cfg, s, a));
  }

  lemma DisconnectRights(cfg: Config, s: State, e: Event, s': State, conn: set<int>)
    requires StoreSpec.Inv(cfg, s) && Next(cfg, s, e, s') && e.req.Disconnect? && OpenersIn(s, conn)
    ensures OpenersIn(s', conn - {e.req.fd})
  {
    forall p | p in s'.files ensures s'.files[p].fdOpen <= conn - {e.req.fd} {
      DisconnectForgets(cfg, s, e, s', p);
    }
  }

  /** Every step but a pop from the empty queue keeps all of it. */
  lemma StepKeepsInv(cfg: Config, s: Server, a: Action)
    requires Inv(cfg, s) && Enabled(cfg, s, a) && !PopsNothing(s, a)
    ensures Inv(cfg, Do(cfg, s, a))
  {
    OwnershipIff(cfg, s, a);
    StepKeepsRights(cfg, s, a);
    StepKeepsQueue(cfg, s, a);
  }

  lemma StepKeepsQueue(cfg: Config, s: Server, a: Action)
    requires Enabled(cfg, s, a) && s.pushed == s.popped + s.queue
    requires s.ready <= s.watched && |s.pipes| == |s.workers|
    ensures var s' := Do(cfg, s, a);
            s'.pushed == s'.popped + s'.queue && s'.ready <= s'.watched && |s'.pipes| == |s'.workers|
  {
    if (a.Look? || a.Pop?) && s.queue != [] {
      assert s.queue == [s.queue[0]] + s.queue[1..];
    }
  }

  // ------------------------------------------------------------------------ runs

  datatype Run = Begin(n: nat) | Acted(before: Run, act: Action, s: Server)

  function Now(r: Run): Server {
    if r.Begin? then Boot(r.n) else r.s
  }

  function Workers(r: Run): nat {
    if r.Begin? then r.n else Workers(r.before)
  }

  ghost predicate Happens(cfg: Config, r: Run) {
    r.Acted? ==> Happens(cfg, r.before) && Enabled(cfg, Now(r.before), r.act) && r.s == Do(cfg, Now(r.before), r.act)
  }

  /** No worker ever popped from the empty queue. */
  predicate Careful(r: Run) {
    r.Acted? ==> Careful(r.before) && !PopsNothing(Now(r.before), r.act)
  }

  lemma {:induction false} BootPlaces(n: nat, fd: Fd)
    ensures Serving(Boot(n).workers, fd) == 0 && Reported(Boot(n).pipes, fd) == 0
  {
    if n > 0 {
      BootPlaces(n - 1, fd);
      assert Boot(n).workers[..n-1] == Boot(n - 1).workers;
      assert Boot(n).pipes[..n-1] == Boot(n - 1).pipes;
    }
  }

  /**
    In every careful run each connected client is in exactly one place, requests
    leave the queue in the order in which they entered it, and files know
    connected clients only.
   */
  lemma {:induction false} CarefulRunsAreSound(cfg: Config, r: Run)
    requires Happens(cfg, r) && Careful(r)
    ensures Inv(cfg, Now(r))
  {
    if r.Begin? {
      forall fd: Fd ensures Places(Now(r), fd) == 0 {
        BootPlaces(r.n, fd);
      }
    } else {
      CarefulRunsAreSound(cfg, r.before);
      StepKeepsInv(cfg, Now(r.before), r.act);
    }
  }

  /** A client that a worker serves is connected, in no other place, and served by no other worker. */
  lemma ServedIsNowhereElse(s: Server, i: nat, j: nat)
    requires Owned(s) && i < |s.workers| && s.workers[i].Busy?
    ensures s.workers[i].fd in s.conn && s.workers[i].fd !in s.watched && s.workers[i].fd !in s.queue
    ensures j < |s.workers| && j != i ==> !Serves(s.workers[j], s.workers[i].fd)
  {
    var fd := s.workers[i].fd;
    assert Places(s, fd) == Bit(fd in s.conn);
    ServingSet(s.workers, i, AtQueue, fd);
    if j < |s.workers| && j != i && Serves(s.workers[j], fd) {
      ServingSet(s.workers[i := AtQueue], j, AtQueue, fd);
    }
  }

  /** No client has two requests in progress, or one in progress and one waiting. */
  lemma OneRequestAtATime(cfg: Config, r: Run, i: nat, j: nat)
    requires Happens(cfg, r) && Careful(r)
    requires i < |Now(r).workers| && Now(r).workers[i].Busy?
    ensures Now(r).workers[i].fd in Now(r).conn
    ensures Now(r).workers[i].fd !in Now(r).watched && Now(r).workers[i].fd !in Now(r).queue
    ensures j < |Now(r).workers| && j != i ==> !Serves(Now(r).workers[j], Now(r).workers[i].fd)
  {
    CarefulRunsAreSound(cfg, r);
    ServedIsNowhereElse(Now(r), i, j);
  }

  /** No request is left in the queue with every worker asleep: a signal is never lost. */
  lemma {:induction false} NoRequestIsStranded(cfg: Config, r: Run)
    requires Happens(cfg, r)
    ensures Now(r).queue != [] && Now(r).workers != [] ==> SomeAwake(Now(r).workers)
  {
    if r.Acted? {
      NoRequestIsStranded(cfg, r.before);
      StepStrandsNobody(cfg, Now(r.before), r.act);
    }
  }

  /** A newly accepted client has no rights, even if its number was used before. */
  lemma NewClientHasNoRights(cfg: Config, r: Run, fd: Fd, p: Path)
    requires Happens(cfg, r) && Careful(r) && Enabled(cfg, Now(r), Accept(fd)) && p in Now(r).store.files
    ensures fd !in Now(r).store.files[p].fdOpen && Now(r).store.files[p].fdLock != fd
  {
    CarefulRunsAreSound(cfg, r);
  }

  // ----------------------------------------------- when can a pop find nothing?

  /** Nobody woke without being signalled. */
  predicate NoSpurious(r: Run) {
    r.Acted? ==> !r.act.Spurious? && NoSpurious(r.before)
  }

  /** No run with `n` workers and without spurious wake-ups ever pops from the empty queue. */
  ghost predicate PopsAreSafe(cfg: Config, n: nat) {
    forall r | Happens(cfg, r) && Workers(r) == n && NoSpurious(r) :: Careful(r)
  }

  /** With one worker at most, a worker that is signalled finds what it was signalled for. */
  ghost predicate Alone(s: Server) {
    && |s.workers| <= 1
    && (|s.workers| == 1 && s.workers[0].Waiting? ==> s.queue == [])
    && (|s.workers| == 1 && s.workers[0].Woken? ==> s.queue != [])
  }

  lemma AloneStays(cfg: Config, s: Server, a: Action)
    requires Alone(s) && Enabled(cfg, s, a) && !a.Spurious?
    ensures !PopsNothing(s, a) && Alone(Do(cfg, s, a))
  {
    if a.Enqueue? && |s.workers| == 1 && s.workers[0].Waiting? {
      assert 0 in Asleep(s.workers);
      var w :| w in a.woken;
    }
  }

  lemma {:induction false} AloneIsCareful(cfg: Config, r: Run)
    requires Happens(cfg, r) && Workers(r) <= 1 && NoSpurious(r)
    ensures Careful(r) && Alone(Now(r))
  {
    if r.Acted? {
      AloneIsCareful(cfg, r.before);
      AloneStays(cfg, Now(r.before), r.act);
    }
  }

  lemma OneMore(cfg: Config, r: Run, a: Action) returns (r': Run)
    requires Happens(cfg, r) && Enabled(cfg, Now(r), a)
    ensures Happens(cfg, r') && Workers(r') == Workers(r) && Now(r') == Do(cfg, Now(r), a)
    ensures NoSpurious(r) && !a.Spurious? ==> NoSpurious(r')
    ensures r'.Acted? && r'.before == r && r'.act == a
  {
    r' := Acted(r, a, Do(cfg, Now(r), a));
  }

  /** Worker 0 waits, worker 1 does not; client `fd` is watched. */
  lemma OneWaits(cfg: Config, n: nat, fd: Fd) returns (r: Run)
    requires n >= 2
    ensures Happens(cfg, r) && NoSpurious(r) && Workers(r) == n
    ensures var s := Now(r);
            && |s.workers| == n && s.workers[0] == Waiting && s.workers[1] == AtQueue
            && s.queue == [] && s.ready == {} && fd in s.watched && s.closing == None
  {
    r := Begin(n);
    r := OneMore(cfg, r, Accept(fd));
    r := OneMore(cfg, r, Look(0));
  }

  /** The client's request wakes worker 0, but worker 1 gets to the queue first. */
  lemma OneIsOvertaken(cfg: Config, n: nat, fd: Fd) returns (r: Run)
    requires n >= 2
    ensures Happens(cfg, r) && NoSpurious(r) && Workers(r) == n
    ensures |Now(r).workers| == n && Now(r).workers[0] == Woken && Now(r).queue == []
  {
    r := OneWaits(cfg, n, fd);
    r := OneMore(cfg, r, Select({fd}));
    var woken := Asleep(Now(r).workers);
    assert 0 in woken;
    r := OneMore(cfg, r, Enqueue(fd, woken));
    r := OneMore(cfg, r, Look(1));
  }

  /**
    The unguarded pop is safe exactly with fewer than two workers: with two, a
    worker that was signalled can find the queue emptied by another.
   */
  lemma PopsAreSafeIff(cfg: Config, n: nat)
    ensures PopsAreSafe(cfg, n) <==> n <= 1
  {
    if n <= 1 {
      forall r | Happens(cfg, r) && Workers(r) == n && NoSpurious(r) ensures Careful(r) {
        AloneIsCareful(cfg, r);
      }
    } else {
      var r := OneIsOvertaken(cfg, n, 4);
      r := OneMore(cfg, r, Pop(0, 4));
      assert !Careful(r);
    }
  }

  /** No run with `n` workers at all ever pops from the empty queue. */
  ghost predicate PopsAreAlwaysSafe(cfg: Config, n: nat) {
    forall r | Happens(cfg, r) && Workers(r) == n :: Careful(r)
  }

  lemma {:induction false} NoWorkersNoPops(cfg: Config, r: Run)
    requires Happens(cfg, r) && Workers(r) == 0
    ensures Careful(r) && Now(r).workers == []
  {
    if r.Acted? {
      NoWorkersNoPops(cfg, r.before);
    }
  }

  /** One worker waits, wakes for no reason and pops. */
  lemma SpuriousPop(cfg: Config, n: nat) returns (r: Run)
    requires n >= 1
    ensures Happens(cfg, r) && Workers(r) == n && !Careful(r)
  {
    r := Begin(n);
    r := OneMore(cfg, r, Look(0));
    r := OneMore(cfg, r, Spurious(0));
    r := OneMore(cfg, r, Pop(0, 4));
  }

  /** With the spurious wake-ups that a condition wait permits, a single worker is already one too many. */
  lemma PopsAreAlwaysSafeIff(cfg: Config, n: nat)
    ensures PopsAreAlwaysSafe(cfg, n) <==> n == 0
  {
    if n == 0 {
      forall r | Happens(cfg, r) && Workers(r) == n ensures Careful(r) {
        NoWorkersNoPops(cfg, r);
      }
    } else {
      var r := SpuriousPop(cfg, n);
    }
  }
}
