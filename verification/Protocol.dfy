/**
  The handlers interleaved: any number of worker threads (and the main thread
  closing clients) over one global mutex `files_mtx`, one table of files and one
  reader-writer lock per file. A step is one mutex or condition-variable
  operation, or a stretch of a handler between two of them that touches only
  data guarded by what the thread holds.
 */
module Protocol {
  import opened Basics
  import opened Clock
  import opened StoreSpec
  import opened StoreRuns
  import R = RwLock

  type Tid = R.Tid
  type Fid = nat

  /** The job of making room: `own` is the new or growing file, `gone` the files expelled so far. */
  datatype Job = Job(req: Request, own: Fid, created: Time, used: Time,
                     need: int, freed: int, gone: seq<Fid>, out: seq<File>)

  /** Where a thread is in its handler, whenever no lock call is in progress. */
  datatype Control =
    | Resting
    | WantFiles(req: Request)
    // from here on the thread holds files_mtx
    | Lookup(req: Request)
    | Locked(req: Request, f: Fid)
    | Created(req: Request, f: Fid, created: Time, used: Time)
    | Scan(job: Job, todo: seq<Fid>, best: Option<Fid>)
    | Compare(job: Job, todo: seq<Fid>, best: Option<Fid>, cur: Fid)
    | Insert(job: Job)
    | Collect(req: Request, left: int, todo: seq<Fid>, taken: seq<Fid>)
    | Sweep(req: Request, todo: seq<Fid>)
    | SweepOne(req: Request, todo: seq<Fid>, cur: Fid)
    | Leave(e: Event, send: seq<Fid>, doomed: seq<Fid>)
    // files_mtx released
    | Send(e: Event, send: seq<Fid>, doomed: seq<Fid>)
    | Finish(e: Event, send: seq<Fid>, doomed: seq<Fid>)

  /** `call` is the file whose lock or unlock call is in progress. */
  datatype Thread = Thread(ctl: Control, call: Option<Fid>)

  /**
    The data that `files_mtx` guards. `files` records the data of every file
    object ever allocated, freed or not.
   */
  datatype Data = Data(table: map<Path, Fid>, files: map<Fid, File>, counters: Counters)

  /**
    The whole server. `locks` has the locks of the file objects not yet freed;
    `trace` lists the critical sections in the order in which they released
    `files_mtx`.
   */
  datatype G = G(
    owner: Option<Tid>,
    d: Data,
    locks: map<Fid, R.Lock>,
    threads: map<Tid, Thread>,
    next: Fid,
    trace: Trace)

  const BOOT := G(None, Data(map[], map[], INITIAL.counters), map[], map[], 0, Start)

  /** Everything the environment decides in one step. */
  datatype Choice = Choice(
    req: Request,        // which request arrives
    order: seq<Fid>,     // in which order a fresh iterator will visit the table
    t0: Time, t1: Time,  // clock readings
    woken: set<Tid>,     // whom a signal wakes
    spurious: bool,      // a sleeper wakes for no reason
    sent: bool)          // the client accepts what is sent

  function Th(threads: map<Tid, Thread>, t: Tid): Thread {
    if t in threads then threads[t] else Thread(Resting, None)
  }

  /** The store as a value. */
  function Abs(d: Data): State {
    State(map p | p in d.table && d.table[p] in d.files :: d.files[d.table[p]], d.counters)
  }

  // --------------------------------------------------------------- primitives

  function Go(g: G, t: Tid, ctl: Control): G {
    g.(threads := g.threads[t := Thread(ctl, None)])
  }

  predicate CanBegin(g: G, t: Tid, f: Fid, a: R.Action) {
    f in g.locks && R.Enabled(g.locks[f], t, a)
  }

  /** Call lock or unlock on `f`; `ctl` is where the handler continues afterwards. */
  function Begin(g: G, t: Tid, f: Fid, a: R.Action, ctl: Control): G
    requires CanBegin(g, t, f, a)
  {
    g.(locks := g.locks[f := R.Do(g.locks[f], t, a)], threads := g.threads[t := Thread(ctl, Some(f))])
  }

  function Free(g: G, f: Fid): G {
    g.(locks := g.locks - {f})
  }

  function SetFile(g: G, f: Fid, file: File): G {
    g.(d := g.d.(files := g.d.files[f := file]))
  }

  function SetCounters(g: G, c: Counters): G {
    g.(d := g.d.(counters := c))
  }

  /** Take `p` out of the table. */
  function Unlink(g: G, p: Path, c: Counters): G {
    g.(d := g.d.(table := g.d.table - {p}, counters := c))
  }

  ghost predicate IsOrder(d: Data, order: seq<Fid>) {
    && (forall f :: f in order <==> f in d.table.Values)
    && NoDup(order)
  }

  predicate NoDup(s: seq<Fid>) {
    forall i, j | 0 <= i < j < |s| :: s[i] != s[j]
  }

  // ------------------------------------------------------------------- steps

  function Plain(req: Request, c: Choice, code: int): Event {
    Event(req, c.t0, c.t1, Reply(code, [], []))
  }

  /** A write or append of nothing, or of a body that `readn` misreports, returns before it gets to `files_mtx`. */
  predicate NeedsFiles(req: Request) {
    (req.Write? || req.Append?) ==> req.data != [] && BodyCheck(|req.data|) == SA_SUCCESS
  }

  function Ask(a: bool): R.Action {
    R.Acquire(a)
  }

  function TryBegin(g: G, t: Tid, f: Fid, a: R.Action, ctl: Control): Option<G> {
    if CanBegin(g, t, f, a) then Some(Begin(g, t, f, a, ctl)) else None
  }

  /** With `files_mtx` just taken: the lookup that every handler starts with. */
  ghost function LookupStep(cfg: Config, g: G, t: Tid, c: Choice, req: Request): Option<G> {
    match req
    case ReadN(n) =>
      if IsOrder(g.d, c.order)
      then Some(Go(g, t, Collect(req, if n <= 0 then g.d.counters.files else n, c.order, [])))
      else None
    case Disconnect(_) =>
      if IsOrder(g.d, c.order) then Some(Go(g, t, Sweep(req, c.order))) else None
    case _ =>
      if req.Open? && req.create then
        if req.path in g.d.table then Some(Go(g, t, Leave(Plain(req, c, SA_EXISTS), [], [])))
        else Some(Allocate(g, t, c, req))
      else if req.path !in g.d.table then
        Some(Go(g, t, Leave(Plain(req, c, if req.Remove? then SA_SUCCESS else SA_NO_FILE), [], [])))
      else TryBegin(g, t, g.d.table[req.path], Ask(!req.Read?), Locked(req, g.d.table[req.path]))
  }

  /** `create_file`; nobody else can reach the new lock, so taking it is one step. */
  function Allocate(g: G, t: Tid, c: Choice, req: Request): G
    requires req.Open?
  {
    var file := NewFile(req.path, req.fd, req.lock, c.t0, c.t1);
    Go(SetFile(g, g.next, file).(locks := g.locks[g.next := R.TakenBy(t)], next := g.next + 1),
       t, Created(req, g.next, c.t0, c.t1))
  }

  /** Unlock `f` and leave with a plain reply. */
  function Refuse(g: G, t: Tid, c: Choice, req: Request, f: Fid, code: int): Option<G> {
    TryBegin(g, t, f, R.Release, Leave(Plain(req, c, code), [], []))
  }

  /** Holding the lock of the requested file: check, act, and unlock or go on. */
  ghost function LockedStep(cfg: Config, g: G, t: Tid, c: Choice, req: Request, f: Fid): Option<G> {
    if f !in g.d.files || f !in g.locks then None
    else
      var file := g.d.files[f];
      match req
      case Open(fd, _, _, lock) =>
        if lock && file.fdLock != NO_FD && file.fdLock != fd then Refuse(g, t, c, req, f, SA_ALREADY_LOCKED)
        else Refuse(SetFile(g, f, OpenedBy(file, fd, lock, c.t1)), t, c, req, f, SA_SUCCESS)
      case Close(fd, _) =>
        Refuse(SetFile(g, f, ClosedBy(file, fd)), t, c, req, f, SA_SUCCESS)
      case Write(fd, _, data) =>
        if fd !in file.fdOpen then Refuse(g, t, c, req, f, SA_NO_OPEN)
        else if file.fdLock != fd then Refuse(g, t, c, req, f, SA_NOT_LOCKED)
        else if file.size != 0 then Refuse(g, t, c, req, f, SA_NOT_EMPTY)
        else if |data| > cfg.maxSpace then Refuse(g, t, c, req, f, SA_TOO_BIG)
        else GrowStep(cfg, g, t, c, req, f, Written(file, data, c.t1), |data|)
      case Append(fd, _, data) =>
        if fd !in file.fdOpen then Refuse(g, t, c, req, f, SA_NO_OPEN)
        else if file.size + |data| > cfg.maxSpace then Refuse(g, t, c, req, f, SA_TOO_BIG)
        else GrowStep(cfg, g, t, c, req, f, Extended(file, data, c.t1), |data|)
      case Read(fd, _) =>
        if fd !in file.fdOpen then Refuse(g, t, c, req, f, SA_NO_OPEN)
        else
          Some(Go(SetFile(g, f, file.(lastUse := c.t1)), t,
                  Leave(Event(req, c.t0, c.t1, Reply(SA_SUCCESS, [PayloadOf(file)], [])), [f], [])))
      case Remove(fd, path) =>
        if fd !in file.fdOpen then Refuse(g, t, c, req, f, SA_NO_OPEN)
        else if file.fdLock != fd then Refuse(g, t, c, req, f, SA_NOT_LOCKED)
        else
          var counters := g.d.counters.(files := g.d.counters.files - 1, space := g.d.counters.space - file.size);
          Some(Go(Free(Unlink(g, path, counters), f), t,
                  Leave(Plain(req, c, SA_SUCCESS), [], [])))
      case _ => None
  }

  /** Install and count the new contents; make room if the byte limit is exceeded. */
  ghost function GrowStep(cfg: Config, g: G, t: Tid, c: Choice, req: Request, f: Fid, grown: File,
                          added: nat): Option<G> {
    var counters := g.d.counters.(space := g.d.counters.space + added);
    var need := counters.space - cfg.maxSpace;
    if 0 < need <= counters.space then
      if IsOrder(g.d, c.order) then
        Some(Go(SetCounters(SetFile(g, f, grown.(canBeExpelled := false)), counters), t,
                Scan(Job(req, f, c.t0, c.t1, need, 0, [], []), c.order, None)))
      else None
    else Refuse(SetCounters(SetFile(g, f, grown), NoteSpace(counters)), t, c, req, f, SA_SUCCESS)
  }

  /** The new file is set up; expel one file if the count limit is met. */
  ghost function CreatedStep(cfg: Config, g: G, t: Tid, c: Choice, req: Request, f: Fid, created: Time,
                             used: Time): Option<G> {
    var job := Job(req, f, created, used, 0, 0, [], []);
    if g.d.counters.files == cfg.maxFiles && g.d.table != map[] then
      if IsOrder(g.d, c.order) then Some(Go(g, t, Scan(job, c.order, None))) else None
    else Some(Go(g, t, Insert(job)))
  }

  /** The loop of `expell_single_file`: next file of the iteration, or expel the oldest found. */
  ghost function ScanStep(cfg: Config, g: G, t: Tid, c: Choice, job: Job, todo: seq<Fid>,
                          best: Option<Fid>): Option<G> {
    if todo != [] then
      if todo[0] !in g.d.files || todo[0] !in g.locks then None
      else if !g.d.files[todo[0]].canBeExpelled then Some(Go(g, t, Scan(job, todo[1..], best)))
      else TryBegin(g, t, todo[0], Ask(true), Compare(job, todo[1..], best, todo[0]))
    else if best.None? || best.value !in g.d.files || best.value !in g.locks then None
    else Expel(cfg, g, t, c, job, best.value)
  }

  ghost function Expel(cfg: Config, g: G, t: Tid, c: Choice, job: Job, b: Fid): Option<G>
    requires b in g.d.files
  {
    var v := g.d.files[b];
    var g1 := Unlink(g, v.path, OneExpelled(g.d.counters, v));
    var job1 := job.(gone := job.gone + [b], out := job.out + [v], freed := job.freed + v.size);
    if job.req.Open? then Some(Go(g1, t, Insert(job1)))
    else if job1.freed < job.need then
      if IsOrder(g1.d, c.order) then Some(Go(g1, t, Scan(job1, c.order, None))) else None
    else Settle(g1, t, job1)
  }

  /** Enough is freed: the growing file may be expelled again, note the space, unlock. */
  function Settle(g: G, t: Tid, job: Job): Option<G> {
    if job.own !in g.d.files then None
    else
      TryBegin(SetCounters(SetFile(g, job.own, g.d.files[job.own].(canBeExpelled := true)), NoteSpace(g.d.counters)),
               t, job.own, R.Release,
               Leave(Event(job.req, job.created, job.used, Reply(SA_SUCCESS, [], job.out)), [], job.gone))
  }

  /** Keep the older of `cur` and the best so far, unlock the other. */
  function CompareStep(cfg: Config, g: G, t: Tid, job: Job, todo: seq<Fid>, best: Option<Fid>, cur: Fid): Option<G> {
    if best.None? then Some(Go(g, t, Scan(job, todo, Some(cur))))
    else if cur !in g.d.files || best.value !in g.d.files then None
    else if Older(cfg.policy, g.d.files[cur], g.d.files[best.value])
    then TryBegin(g, t, best.value, R.Release, Scan(job, todo, Some(cur)))
    else TryBegin(g, t, cur, R.Release, Scan(job, todo, best))
  }

  /** Enter the new file in the table, count it, unlock it. */
  function InsertStep(g: G, t: Tid, job: Job): Option<G> {
    if job.own !in g.d.files || !job.req.Open? || !CanBegin(g, t, job.own, R.Release) then None
    else
      var g1 := Begin(g, t, job.own, R.Release,
                      Leave(Event(job.req, job.created, job.used, Reply(SA_SUCCESS, [], job.out)), [], job.gone));
      Some(g1.(d := Data(g.d.table[job.req.path := job.own],
                         g.d.files[job.own := g.d.files[job.own].(canBeExpelled := true)],
                         Counted(g.d.counters))))
  }

  function PayloadsOf(files: map<Fid, File>, fs: seq<Fid>): seq<Payload>
    requires forall f | f in fs :: f in files
  {
    seq(|fs|, i requires 0 <= i < |fs| => PayloadOf(files[fs[i]]))
  }

  /** The loop of `read_n_files`: read-lock the next file, or stop. */
  function CollectStep(g: G, t: Tid, c: Choice, req: Request, left: int, todo: seq<Fid>, taken: seq<Fid>): Option<G> {
    if left > 0 && todo != [] then
      TryBegin(g, t, todo[0], Ask(false), Collect(req, left - 1, todo[1..], taken + [todo[0]]))
    else if exists f :: f in taken && f !in g.d.files then None
    else Some(Go(g, t, Leave(Event(req, c.t0, c.t1, Reply(SA_SUCCESS, PayloadsOf(g.d.files, taken), [])), taken, [])))
  }

  /** The loop of `close_client`: write-lock the next file, or stop. */
  function SweepStep(g: G, t: Tid, c: Choice, req: Request, todo: seq<Fid>): Option<G> {
    if todo != [] then TryBegin(g, t, todo[0], Ask(true), SweepOne(req, todo[1..], todo[0]))
    else Some(Go(g, t, Leave(Plain(req, c, SA_SUCCESS), [], [])))
  }

  function SweepOneStep(g: G, t: Tid, req: Request, todo: seq<Fid>, cur: Fid): Option<G> {
    if cur !in g.d.files || !req.Disconnect? then None
    else TryBegin(SetFile(g, cur, ClosedBy(g.d.files[cur], req.fd)), t, cur, R.Release, Sweep(req, todo))
  }

  /** Release `files_mtx`; the critical section joins the trace. */
  function LeaveStep(g: G, t: Tid, e: Event, send: seq<Fid>, doomed: seq<Fid>): Option<G> {
    Some(Go(g.(owner := None, trace := Then(g.trace, e, Abs(g.d))), t, Send(e, send, doomed)))
  }

  /** Send the reply. A failed send makes `read_file` return without unlocking. */
  function SendStep(g: G, t: Tid, c: Choice, e: Event, send: seq<Fid>, doomed: seq<Fid>): Option<G> {
    if !c.sent && e.req.Read? && send != [] then
      if CanBegin(g, t, send[0], R.Abandon)
      then Some(Go(g.(locks := g.locks[send[0] := R.Do(g.locks[send[0]], t, R.Abandon)]), t, Resting))
      else None
    else Some(Go(g, t, Finish(e, send, doomed)))
  }

  /** Unlock what was read, free what was expelled. */
  function FinishStep(g: G, t: Tid, e: Event, send: seq<Fid>, doomed: seq<Fid>): Option<G> {
    if send != [] then TryBegin(g, t, send[0], R.Release, Finish(e, send[1..], doomed))
    else if doomed != [] then
      if doomed[0] in g.locks then Some(Go(Free(g, doomed[0]), t, Finish(e, [], doomed[1..]))) else None
    else Some(Go(g, t, Resting))
  }

  /** One step inside a lock or unlock call on `f`. */
  function InnerStep(g: G, t: Tid, c: Choice, ctl: Control, f: Fid): Option<G> {
    var a := if c.spurious then R.Spurious else R.Advance(c.woken);
    if !CanBegin(g, t, f, a) then None
    else
      var l := R.Do(g.locks[f], t, a);
      Some(g.(locks := g.locks[f := l],
              threads := g.threads[t := Thread(ctl, if R.InCall(R.At(l, t)) then Some(f) else None)]))
  }

  ghost function Step(cfg: Config, g: G, t: Tid, c: Choice): Option<G> {
    var th := Th(g.threads, t);
    if th.call.Some? then InnerStep(g, t, c, th.ctl, th.call.value)
    else
      match th.ctl
      case Resting => if NeedsFiles(c.req) then Some(Go(g, t, WantFiles(c.req))) else None
      case WantFiles(req) => if g.owner == None then Some(Go(g.(owner := Some(t)), t, Lookup(req))) else None
      case Lookup(req) => LookupStep(cfg, g, t, c, req)
      case Locked(req, f) => LockedStep(cfg, g, t, c, req, f)
      case Created(req, f, created, used) => CreatedStep(cfg, g, t, c, req, f, created, used)
      case Scan(job, todo, best) => ScanStep(cfg, g, t, c, job, todo, best)
      case Compare(job, todo, best, cur) => CompareStep(cfg, g, t, job, todo, best, cur)
      case Insert(job) => InsertStep(g, t, job)
      case Collect(req, left, todo, taken) => CollectStep(g, t, c, req, left, todo, taken)
      case Sweep(req, todo) => SweepStep(g, t, c, req, todo)
      case SweepOne(req, todo, cur) => SweepOneStep(g, t, req, todo, cur)
      case Leave(e, send, doomed) => LeaveStep(g, t, e, send, doomed)
      case Send(e, send, doomed) => SendStep(g, t, c, e, send, doomed)
      case Finish(e, send, doomed) => FinishStep(g, t, e, send, doomed)
  }
}
