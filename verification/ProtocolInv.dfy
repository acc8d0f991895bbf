/** What holds between any two steps of the interleaved handlers. */
module ProtocolInv {
  import opened Basics
  import opened Clock
  import opened StoreSpec
  import opened Eviction
  import opened StoreRuns
  import opened Protocol
  import R = RwLock

  function Elems(s: seq<Fid>): set<Fid> {
    set f | f in s
  }

  function Opt(o: Option<Fid>): set<Fid> {
    if o.Some? then {o.value} else {}
  }

  // The invariants below are written `(...) == true` to keep each a single proof obligation.

  // ------------------------------------------------ what a control point holds

  /** Files held as a writer once the pending call, if any, has returned. */
  function Wr(ctl: Control): set<Fid> {
    match ctl
    case Locked(req, f) => if req.Read? then {} else {f}
    case Created(_, f, _, _) => {f}
    case Scan(job, _, best) => {job.own} + Elems(job.gone) + Opt(best)
    case Compare(job, _, best, cur) => {job.own} + Elems(job.gone) + Opt(best) + {cur}
    case Insert(job) => {job.own} + Elems(job.gone)
    case SweepOne(_, _, cur) => {cur}
    case Leave(_, _, doomed) => Elems(doomed)
    case Send(_, _, doomed) => Elems(doomed)
    case Finish(_, _, doomed) => Elems(doomed)
    case _ => {}
  }

  /** Files held as a reader. */
  function Rd(ctl: Control): set<Fid> {
    match ctl
    case Locked(req, f) => if req.Read? then {f} else {}
    case Collect(_, _, _, taken) => Elems(taken)
    case Leave(_, send, _) => Elems(send)
    case Send(_, send, _) => Elems(send)
    case Finish(_, send, _) => Elems(send)
    case _ => {}
  }

  /** Files the thread alone can still reach: new, or already expelled. */
  function Loose(ctl: Control): set<Fid> {
    match ctl
    case Created(_, f, _, _) => {f}
    case Scan(job, _, _) => Elems(job.gone) + (if job.req.Open? then {job.own} else {})
    case Compare(job, _, _, _) => Elems(job.gone) + (if job.req.Open? then {job.own} else {})
    case Insert(job) => Elems(job.gone) + {job.own}
    case Leave(_, _, doomed) => Elems(doomed)
    case Send(_, _, doomed) => Elems(doomed)
    case Finish(_, _, doomed) => Elems(doomed)
    case _ => {}
  }

  /** The file whose lock may be being acquired on the way to `ctl`. */
  function Target(ctl: Control): Option<Fid> {
    match ctl
    case Locked(_, f) => Some(f)
    case Compare(_, _, _, cur) => Some(cur)
    case Collect(_, _, _, taken) => if taken == [] then None else Some(taken[|taken|-1])
    case SweepOne(_, _, cur) => Some(cur)
    case _ => None
  }

  /** Control points between taking and releasing `files_mtx`. */
  predicate Critical(ctl: Control) {
    !ctl.Resting? && !ctl.WantFiles? && !ctl.Send? && !ctl.Finish?
  }

  /** A thread's place with respect to one file's lock. */
  datatype Place = Nowhere | Entering(w: bool) | Inside(w: bool) | Leaving

  function PlaceOf(p: R.Pc): Place {
    match p
    case Out => Nowhere
    case Holds(w) => Inside(w)
    case UnWant(_) => Leaving
    case UnCount(_) => Leaving
    case UnDrop(_) => Leaving
    case WantOrder(w) => Entering(w)
    case WantFile(w) => Entering(w)
    case Test(w) => Entering(w)
    case Asleep(w) => Entering(w)
    case Woken(w) => Entering(w)
    case DropOrder(w) => Entering(w)
    case DropFile(w) => Entering(w)
  }

  /** The place a handler's control point calls for. */
  function Wanted(th: Thread, f: Fid): Place {
    var holds := f in Wr(th.ctl) || f in Rd(th.ctl);
    if th.call == Some(f) then if holds then Entering(f in Wr(th.ctl)) else Leaving
    else if holds then Inside(f in Wr(th.ctl))
    else Nowhere
  }

  /** The thread's place in the lock of `f` is the one its handler's place calls for. */
  predicate Fits(th: Thread, f: Fid, p: R.Pc) {
    PlaceOf(p) == Wanted(th, f)
  }

  function Refs(th: Thread): set<Fid> {
    Wr(th.ctl) + Rd(th.ctl) + Opt(th.call)
  }

  // -------------------------------------------------------- structural invariant

  ghost predicate LocksOk(locks: map<Fid, R.Lock>) {
    forall f | f in locks :: R.Reachable(locks[f])
  }

  ghost predicate FitOk(threads: map<Tid, Thread>, locks: map<Fid, R.Lock>) {
    forall t: Tid, f | f in locks :: Fits(Th(threads, t), f, R.At(locks[f], t))
  }

  /** A lock call in progress on a file the handler is to hold is on its way to the expected place. */
  predicate CallOk(th: Thread) {
    th.call.Some? && th.call.value in Wr(th.ctl) + Rd(th.ctl) ==> Target(th.ctl) == th.call
  }

  /** What was reported at the release of `files_mtx` is still what the held objects contain. */
  ghost predicate Shows(files: map<Fid, File>, e: Event, send: seq<Fid>, doomed: seq<Fid>) {
    && |send| == |e.reply.sent| && |doomed| == |e.reply.expelled|
    && (forall i | 0 <= i < |send| :: send[i] in files && PayloadOf(files[send[i]]) == e.reply.sent[i])
    && (forall i | 0 <= i < |doomed| :: doomed[i] in files && files[doomed[i]] == e.reply.expelled[i])
    && Apart(send, doomed)
    && (e.req.Read? ==> |send| <= 1 && doomed == [])
  }

  ghost predicate Apart(send: seq<Fid>, doomed: seq<Fid>) {
    NoDup(send) && NoDup(doomed) && Elems(send) !! Elems(doomed)
  }

  ghost predicate SnapOk(files: map<Fid, File>, ctl: Control) {
    (match ctl
     case WantFiles(req) => NeedsFiles(req)
     case Leave(e, send, doomed) => Shows(files, e, send, doomed)
     case Send(e, send, doomed) => Shows(files, e, send, doomed)
     case Finish(_, send, doomed) => Apart(send, doomed)
     case _ => true) == true
  }

  /**
    Thread `t`: it refers to live objects only, it is in a critical section just
    when it owns `files_mtx`, and nobody finds its loose files in the table.
   */
  ghost predicate ThreadOk(th: Thread, t: Tid, alive: set<Fid>, owner: Option<Tid>, stored: set<Fid>,
                           files: map<Fid, File>) {
    && Refs(th) <= alive
    && (Critical(th.ctl) <==> owner == Some(t))
    && CallOk(th)
    && Loose(th.ctl) !! stored
    && SnapOk(files, th.ctl)
  }

  ghost predicate ThreadsOk(threads: map<Tid, Thread>, alive: set<Fid>, owner: Option<Tid>, stored: set<Fid>,
                            files: map<Fid, File>) {
    forall t: Tid :: ThreadOk(Th(threads, t), t, alive, owner, stored, files)
  }

  ghost predicate TableOk(d: Data, alive: set<Fid>) {
    forall p | p in d.table :: d.table[p] in alive && d.table[p] in d.files && d.files[d.table[p]].path == p
  }

  ghost predicate KeysOk(d: Data, alive: set<Fid>, next: Fid) {
    && alive <= d.files.Keys
    && forall f | f in d.files :: f < next
  }

  ghost predicate Struct(g: G) {
    (LocksOk(g.locks)
     && FitOk(g.threads, g.locks)
     && ThreadsOk(g.threads, g.locks.Keys, g.owner, g.d.table.Values, g.d.files)
     && TableOk(g.d, g.locks.Keys)
     && KeysOk(g.d, g.locks.Keys, g.next)) == true
  }

  // -------------------------------------------------------------- data invariant

  function GrownBy(s: State, req: Request, used: Time): File
    requires (req.Write? || req.Append?) && req.path in s.files
  {
    if req.Write? then Written(s.files[req.path], req.data, used) else Extended(s.files[req.path], req.data, used)
  }

  predicate GrowthAccepted(cfg: Config, s: State, req: Request) {
    && (req.Write? ==> WriteCheck(cfg, s, req.fd, req.path, req.data) == SA_SUCCESS)
    && (req.Append? ==> req.data != [] && AppendCheck(cfg, s, req.fd, req.path, req.data) == SA_SUCCESS)
    && (req.Write? || req.Append?)
  }

  /** A creation has set up its file; `out` has left the store so far. */
  ghost predicate CreateData(cfg: Config, d: Data, s: State, job: Job) {
    && job.req.Open? && job.req.create
    && job.req.path !in s.files
    && job.own in d.files
    && d.files[job.own] == NewFile(job.req.path, job.req.fd, job.req.lock, job.created, job.used)
    && job.own !in d.table.Values
    && Evictions(cfg.policy, s.files, job.out)
    && Abs(d) == State(Without(s.files, job.out), AfterExpelling(s.counters, job.out))
  }

  /** A write or append has installed its contents; `out` has left the store so far. */
  ghost predicate GrowData(cfg: Config, d: Data, s: State, job: Job) {
    && GrowthAccepted(cfg, s, job.req)
    && var grown := GrownBy(s, job.req, job.used);
       var added := |DataOf(job.req)|;
       && job.req.path in d.table && d.table[job.req.path] == job.own
       && job.own in d.files && d.files[job.own] == grown.(canBeExpelled := false)
       && job.need == s.counters.space + added - cfg.maxSpace > 0
       && ExpelSoFar(cfg.policy, Shielded(s, grown), job.need, job.out, Abs(d).files)
       && job.freed == Bytes(job.out)
       && d.counters == AfterExpelling(Grown(s, grown, added).counters, job.out)
  }

  ghost predicate GoneData(d: Data, job: Job) {
    && |job.gone| == |job.out| && NoDup(job.gone)
    && (forall i | 0 <= i < |job.gone| :: job.gone[i] in d.files && d.files[job.gone[i]] == job.out[i])
    && (forall f | f in job.gone :: f !in d.table.Values)
    && job.own in d.files && job.own !in job.gone
  }

  ghost predicate JobData(cfg: Config, d: Data, s: State, job: Job) {
    && GoneData(d, job)
    && (if job.req.Open? then CreateData(cfg, d, s, job) else GrowData(cfg, d, s, job))
  }

  /** Another file must be expelled before the job is done. */
  predicate NeedsMore(cfg: Config, s: State, job: Job) {
    if job.req.Open? then job.out == [] && MustMakeRoom(cfg, s) else job.freed < job.need
  }

  ghost predicate Candidate(d: Data, f: Fid) {
    f in d.table.Values && f in d.files && d.files[f].canBeExpelled
  }

  /** `best` is no newer than any expellable file the scan has passed. */
  ghost predicate Passed(cfg: Config, d: Data, todo: seq<Fid>, best: Option<Fid>, cur: Option<Fid>) {
    forall p | p in d.table && d.table[p] in d.files && d.files[d.table[p]].canBeExpelled ::
      || d.table[p] in todo
      || cur == Some(d.table[p])
      || (best.Some? && best.value in d.files && !Older(cfg.policy, d.files[d.table[p]], d.files[best.value]))
  }

  ghost predicate ScanData(cfg: Config, d: Data, todo: seq<Fid>, best: Option<Fid>, cur: Option<Fid>) {
    && NoDup(todo) && (forall f | f in todo :: f in d.table.Values)
    && (best.Some? ==> Candidate(d, best.value) && best.value !in todo)
    && (cur.Some? ==> Candidate(d, cur.value) && cur.value !in todo && cur != best)
    && Passed(cfg, d, todo, best, cur)
  }

  /** Files still to be visited are as before, the others have forgotten `fd`. */
  ghost predicate SweepData(d: Data, s: State, req: Request, todo: seq<Fid>) {
    && req.Disconnect?
    && NoDup(todo) && (forall f | f in todo :: f in d.table.Values)
    && d.counters == s.counters && Abs(d).files.Keys == s.files.Keys && d.table.Keys == s.files.Keys
    && forall p | p in s.files ::
         Abs(d).files[p] == if d.table[p] in todo then s.files[p] else ClosedBy(s.files[p], req.fd)
  }

  ghost predicate CollectData(d: Data, req: Request, left: int, todo: seq<Fid>, taken: seq<Fid>) {
    && req.ReadN?
    && NoDup(taken + todo) && (forall f | f in taken + todo :: f in d.table.Values)
    && |taken| + |todo| == |d.table|
    && left >= 0 && left + |taken| == if req.n <= 0 then |d.table| else req.n
  }

  /** Where the owner of `files_mtx` stands: `s` is the store it found. */
  ghost predicate CtlData(cfg: Config, d: Data, s: State, ctl: Control) {
    (match ctl
    case Lookup(req) => Abs(d) == s && NeedsFiles(req)
    case Locked(req, f) =>
      && Abs(d) == s && NeedsFiles(req)
      && !req.ReadN? && !req.Disconnect? && !(req.Open? && req.create)
      && req.path in d.table && d.table[req.path] == f
    case Created(req, f, created, used) =>
      && CreateData(cfg, d, s, Job(req, f, created, used, 0, 0, [], []))
    case Scan(job, todo, best) =>
      JobData(cfg, d, s, job) && NeedsMore(cfg, s, job) && ScanData(cfg, d, todo, best, None)
    case Compare(job, todo, best, cur) =>
      JobData(cfg, d, s, job) && NeedsMore(cfg, s, job) && ScanData(cfg, d, todo, best, Some(cur))
    case Insert(job) =>
      && GoneData(d, job) && CreateData(cfg, d, s, job)
      && |job.out| == (if MustMakeRoom(cfg, s) then 1 else 0)
    case Collect(req, left, todo, taken) => Abs(d) == s && CollectData(d, req, left, todo, taken)
    case Sweep(req, todo) => SweepData(d, s, req, todo)
    case SweepOne(req, todo, cur) => SweepData(d, s, req, [cur] + todo)
    case Leave(e, send, doomed) => Next(cfg, s, e, Abs(d))
    case _ => true) == true
  }

  /** Between critical sections the store is the one the trace ends in. */
  ghost predicate DataOk(cfg: Config, g: G) {
    (Lawful(cfg, g.trace)
     && if g.owner.None? then Abs(g.d) == Last(g.trace)
        else CtlData(cfg, g.d, Last(g.trace), Th(g.threads, g.owner.value).ctl)) == true
  }

  ghost predicate GInv(cfg: Config, g: G) {
    Struct(g) && DataOk(cfg, g)
  }

  lemma BootInv(cfg: Config)
    ensures GInv(cfg, BOOT)
  {
    assert Abs(BOOT.d).files == map[];
  }
}
