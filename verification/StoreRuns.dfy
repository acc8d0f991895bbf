/** What holds in every state of every sequence of requests. */
module StoreRuns {
  import opened Clock
  import opened StoreSpec
  import opened Eviction

  /** A history of the store: the empty server, or one more served request and the state it left. */
  datatype Trace = Start | Then(before: Trace, event: Event, state: State)

  function Last(tr: Trace): State {
    if tr.Start? then INITIAL else tr.state
  }

  /** Every state follows from the one before by serving the recorded event. */
  ghost predicate Lawful(cfg: Config, tr: Trace) {
    tr.Then? ==> Lawful(cfg, tr.before) && Next(cfg, Last(tr.before), tr.event, tr.state)
  }

  /** `early` is an earlier stage (or all) of `tr`. */
  predicate Continues(tr: Trace, early: Trace) {
    tr == early || (tr.Then? && Continues(tr.before, early))
  }

  // ------------------------------------------------------------------ capacity

  lemma {:induction false} RunKeepsInv(cfg: Config, tr: Trace)
    requires Lawful(cfg, tr)
    ensures Inv(cfg, Last(tr))
  {
    if tr.Then? {
      RunKeepsInv(cfg, tr.before);
      NextKeepsInv(cfg, Last(tr.before), tr.event, tr.state);
    }
  }

  /** Bytes never exceed the limit, and the separately kept counters never drift. */
  lemma SpaceIsSafe(cfg: Config, tr: Trace)
    requires Lawful(cfg, tr)
    ensures Last(tr).counters.files == |Last(tr).files|
    ensures 0 <= Last(tr).counters.space == TotalSize(Last(tr).files) <= cfg.maxSpace
    ensures forall p | p in Last(tr).files :: Last(tr).files[p].size == |Last(tr).files[p].contents|
  {
    RunKeepsInv(cfg, tr);
    TotalSizeNonNegative(Last(tr).files);
  }

  lemma StepKeepsCount(cfg: Config, s: State, e: Event, s': State)
    requires cfg.maxFiles >= 1
    requires Inv(cfg, s) && Next(cfg, s, e, s')
    requires s.counters.files <= cfg.maxFiles
    ensures s'.counters.files <= cfg.maxFiles
  {
  }

  lemma {:induction false} CountIsSafe(cfg: Config, tr: Trace)
    requires cfg.maxFiles >= 1
    requires Lawful(cfg, tr)
    ensures Last(tr).counters.files == |Last(tr).files| <= cfg.maxFiles
  {
    RunKeepsInv(cfg, tr);
    if tr.Then? {
      CountIsSafe(cfg, tr.before);
      RunKeepsInv(cfg, tr.before);
      StepKeepsCount(cfg, Last(tr.before), tr.event, tr.state);
    }
  }

  ghost predicate CountBoundHolds(cfg: Config) {
    forall tr | Lawful(cfg, tr) :: |Last(tr).files| <= cfg.maxFiles
  }

  lemma CreationInEmptyStore(cfg: Config, s: State, e: Event) returns (s': State)
    requires e.req.Open? && e.req.create && e.reply == Reply(SA_SUCCESS, [], [])
    requires s.files.Keys == {}
    ensures CreateNext(cfg, s, e, s')
    ensures |s'.files| == 1
  {
    var f := NewFile(e.req.path, e.req.fd, e.req.lock, e.created, e.used).(canBeExpelled := true);
    WithoutNone(s.files);
    AddKeepsTotals(s.files, e.req.path, f);
    s' := State(s.files[e.req.path := f], Counted(s.counters));
  }

  /** With a count limit of zero every creation in an empty store breaks it: nothing is there to evict. */
  lemma ZeroLimitIsBroken(cfg: Config, tr: Trace, e: Event) returns (tr': Trace)
    requires cfg.maxFiles == 0
    requires Lawful(cfg, tr) && Last(tr).files.Keys == {}
    requires e.req.Open? && e.req.create && e.reply == Reply(SA_SUCCESS, [], [])
    ensures tr'.Then? && tr'.before == tr && Lawful(cfg, tr') && |Last(tr').files| > cfg.maxFiles
  {
    var s := CreationInEmptyStore(cfg, Last(tr), e);
    tr' := Then(tr, e, s);
  }

  /** The file-count limit holds in all runs exactly when it is at least one. */
  lemma CountBoundIff(cfg: Config)
    ensures CountBoundHolds(cfg) <==> cfg.maxFiles >= 1
  {
    if cfg.maxFiles >= 1 {
      forall tr | Lawful(cfg, tr) ensures |Last(tr).files| <= cfg.maxFiles {
        CountIsSafe(cfg, tr);
      }
    } else {
      var t := Time(0, 0);
      var tr := ZeroLimitIsBroken(cfg, Start, Event(Open(3, [97], true, false), t, t, Reply(SA_SUCCESS, [], [])));
    }
  }

  // -------------------------------------------------------------------- ledger

  datatype Ledger = Ledger(
    created: int, removed: int, expelled: int,
    accepted: int, bytesRemoved: int, bytesExpelled: int)

  function DataOf(req: Request): seq<Byte> {
    match req
    case Write(_, _, data) => data
    case Append(_, _, data) => data
    case _ => []
  }

  /** What one served request adds to the ledger, read off the event alone and the departing file. */
  function Entry(s: State, e: Event): Ledger {
    var ok := e.reply.code == SA_SUCCESS;
    var leaves := e.req.Remove? && ok && e.req.path in s.files;
    Ledger(
      if e.req.Open? && e.req.create && ok then 1 else 0,
      if leaves then 1 else 0,
      |e.reply.expelled|,
      if ok then |DataOf(e.req)| else 0,
      if leaves then s.files[e.req.path].size else 0,
      Bytes(e.reply.expelled))
  }

  function Plus(a: Ledger, b: Ledger): Ledger {
    Ledger(a.created + b.created, a.removed + b.removed, a.expelled + b.expelled,
           a.accepted + b.accepted, a.bytesRemoved + b.bytesRemoved, a.bytesExpelled + b.bytesExpelled)
  }

  function Book(tr: Trace): Ledger {
    if tr.Start? then Ledger(0, 0, 0, 0, 0, 0)
    else Plus(Book(tr.before), Entry(Last(tr.before), tr.event))
  }

  lemma StepBalances(cfg: Config, s: State, e: Event, s': State)
    requires Inv(cfg, s) && Next(cfg, s, e, s')
    ensures var d := Entry(s, e);
            && s'.counters.files == s.counters.files + d.created - d.removed - d.expelled
            && s'.counters.space == s.counters.space + d.accepted - d.bytesRemoved - d.bytesExpelled
            && s'.counters.noLru == s.counters.noLru + d.expelled
  {
  }

  /**
    Conservation over whole runs: files created are stored, removed or expelled;
    bytes accepted are stored, removed or expelled; `no_LRU` counts the expulsions.
   */
  lemma {:induction false} LedgerBalances(cfg: Config, tr: Trace)
    requires Lawful(cfg, tr)
    ensures Book(tr).created == |Last(tr).files| + Book(tr).removed + Book(tr).expelled
    ensures Book(tr).accepted == TotalSize(Last(tr).files) + Book(tr).bytesRemoved + Book(tr).bytesExpelled
    ensures Last(tr).counters.noLru == Book(tr).expelled
  {
    RunKeepsInv(cfg, tr);
    if tr.Then? {
      RunKeepsInv(cfg, tr.before);
      LedgerBalances(cfg, tr.before);
      StepBalances(cfg, Last(tr.before), tr.event, tr.state);
    }
  }

  /** The largest number of files, and of bytes, stored in any state so far. */
  ghost function PeakFiles(tr: Trace): int {
    if tr.Start? then 0 else Max(PeakFiles(tr.before), |tr.state.files|)
  }

  ghost function PeakSpace(tr: Trace): int {
    if tr.Start? then 0 else Max(PeakSpace(tr.before), TotalSize(tr.state.files))
  }

  lemma StepNotesMaxima(cfg: Config, s: State, e: Event, s': State)
    requires Inv(cfg, s) && Next(cfg, s, e, s')
    requires s.counters.files <= s.counters.maxFiles && s.counters.space <= s.counters.maxSpace
    ensures s'.counters.maxFiles == Max(s.counters.maxFiles, s'.counters.files)
    ensures s'.counters.maxSpace == Max(s.counters.maxSpace, s'.counters.space)
  {
    BytesNonNegative(e.reply.expelled);
  }

  /** The maxima the server reports are the exact peaks over the whole run. */
  lemma {:induction false} MaximaAreExact(cfg: Config, tr: Trace)
    requires Lawful(cfg, tr)
    ensures Last(tr).counters.maxFiles == PeakFiles(tr) >= |Last(tr).files|
    ensures Last(tr).counters.maxSpace == PeakSpace(tr) >= TotalSize(Last(tr).files)
  {
    RunKeepsInv(cfg, tr);
    if tr.Then? {
      RunKeepsInv(cfg, tr.before);
      MaximaAreExact(cfg, tr.before);
      StepNotesMaxima(cfg, Last(tr.before), tr.event, tr.state);
    }
  }

  // ------------------------------------------------------ rights and contents

  /** Who sent the request; nobody in particular for `ReadN`. */
  function Sender(req: Request): int {
    match req
    case ReadN(_) => NO_FD
    case _ => req.fd
  }

  /** A file leaves only by eviction or by a removal of its lock holder. */
  lemma DeparturesAreRightful(cfg: Config, s: State, e: Event, s': State, p: Path)
    requires Inv(cfg, s) && Next(cfg, s, e, s')
    requires p in s.files && p !in s'.files
    ensures p in PathsOf(e.reply.expelled)
         || (e.req.Remove? && e.req.path == p && s.files[p].fdLock == e.req.fd && e.req.fd in s.files[p].fdOpen)
  {
  }

  /** A file that stays changes only in the ways its openers and its holder may change it. */
  lemma ChangesAreRightful(cfg: Config, s: State, e: Event, s': State, p: Path)
    requires Inv(cfg, s) && Next(cfg, s, e, s')
    requires p in s.files && p in s'.files
    ensures s.files[p].contents <= s'.files[p].contents
    ensures s'.files[p].contents != s.files[p].contents ==>
              && Sender(e.req) in s.files[p].fdOpen
              && (e.req.Append? || (e.req.Write? && s.files[p].contents == [] && s.files[p].fdLock == e.req.fd))
    ensures s.files[p].fdLock != NO_FD && s'.files[p].fdLock != s.files[p].fdLock ==>
              && s'.files[p].fdLock == NO_FD
              && (e.req.Close? || e.req.Disconnect?)
              && Sender(e.req) == s.files[p].fdLock
    ensures s'.files[p].fdOpen - s.files[p].fdOpen <= {Sender(e.req)}
    ensures s.files[p].fdOpen - s'.files[p].fdOpen <= {Sender(e.req)}
    ensures s'.files[p].created == s.files[p].created
  {
  }

  /** After `close_client(c)` no stored file knows `c`. */
  lemma DisconnectForgets(cfg: Config, s: State, e: Event, s': State, p: Path)
    requires Inv(cfg, s) && Next(cfg, s, e, s') && e.req.Disconnect?
    requires p in s'.files
    ensures e.req.fd !in s'.files[p].fdOpen && s'.files[p].fdLock != e.req.fd
    ensures p in s.files && s'.files[p].fdOpen == s.files[p].fdOpen - {e.req.fd}
  {
  }

  /** `p` is stored in every state of `tr` from `early` on. */
  predicate StoredSince(tr: Trace, early: Trace, p: Path) {
    p in Last(tr).files && (tr == early || (tr.Then? && StoredSince(tr.before, early, p)))
  }

  /** Contents are append-only for as long as a file stays stored. */
  lemma {:induction false} ContentsOnlyGrow(cfg: Config, tr: Trace, early: Trace, p: Path)
    requires Lawful(cfg, tr) && StoredSince(tr, early, p)
    ensures p in Last(early).files
    ensures Last(early).files[p].contents <= Last(tr).files[p].contents
    ensures Last(early).files[p].created == Last(tr).files[p].created
  {
    if tr != early {
      ContentsOnlyGrow(cfg, tr.before, early, p);
      RunKeepsInv(cfg, tr.before);
      ChangesAreRightful(cfg, Last(tr.before), tr.event, tr.state, p);
    }
  }

  predicate Holds(tr: Trace, p: Path, fd: int) {
    p in Last(tr).files && Last(tr).files[p].fdLock == fd
  }

  /**
    The client lock never changes hands directly: between two states in which
    different clients hold it, the file was unlocked or absent.
   */
  lemma {:induction false} LockPassesThroughFree(cfg: Config, tr: Trace, early: Trace, p: Path, a: int, b: int)
      returns (mid: Trace)
    requires Lawful(cfg, tr) && Continues(tr, early)
    requires a != NO_FD && b != NO_FD && a != b
    requires Holds(early, p, a) && Holds(tr, p, b)
    ensures Continues(tr, mid) && Continues(mid, early) && mid != tr && mid != early
    ensures p !in Last(mid).files || Holds(mid, p, NO_FD)
  {
    mid := tr.before;
    if p in Last(mid).files && Last(mid).files[p].fdLock != NO_FD {
      RunKeepsInv(cfg, tr.before);
      ChangesAreRightful(cfg, Last(tr.before), tr.event, tr.state, p);
      mid := LockPassesThroughFree(cfg, tr.before, early, p, a, b);
    }
  }
}
