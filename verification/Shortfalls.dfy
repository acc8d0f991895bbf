/**
  Where the handlers fall short of what their checks are evidently for: for each
  shortfall the exact condition, and a run from the empty server that meets it.
 */
module Shortfalls {
  import opened Clock
  import opened Ints
  import opened StoreSpec
  import opened Eviction
  import opened StoreRuns

  // ------------------------------------------------------------------- runs to meet them

  /** One more event of a lawful history. */
  lemma Served(cfg: Config, tr: Trace, e: Event, s: State) returns (tr': Trace)
    requires Lawful(cfg, tr) && Next(cfg, Last(tr), e, s)
    ensures tr' == Then(tr, e, s) && Lawful(cfg, tr')
  {
    tr' := Then(tr, e, s);
  }

  /** What a creation leaves in a store that was empty. */
  lemma OnlyFile(cfg: Config, s: State, e: Event, s': State)
    requires e.req.Open? && CreateNext(cfg, s, e, s') && s.files.Keys == {} && e.reply.expelled == []
    ensures s'.files.Keys == {e.req.path} && s'.counters.space == s.counters.space
    ensures var f := s'.files[e.req.path];
            && f.path == e.req.path && f.contents == [] && f.size == 0 && f.fdOpen == {e.req.fd}
            && f.fdLock == if e.req.lock then e.req.fd else NO_FD
  {
    WithoutNone(s.files);
  }

  /** A client creates a file in an empty store and locks it. */
  lemma LockedFrom(cfg: Config, tr0: Trace, fd: Fd, path: Path, t: Time) returns (tr: Trace)
    requires Lawful(cfg, tr0) && Last(tr0).files.Keys == {} && Last(tr0).counters.space == 0
    ensures Lawful(cfg, tr) && Last(tr).files.Keys == {path} && Last(tr).counters.space == 0
    ensures var f := Last(tr).files[path]; f.contents == [] && f.size == 0 && f.fdLock == fd && f.fdOpen == {fd}
  {
    var e := Event(Open(fd, path, true, true), t, t, Reply(SA_SUCCESS, [], []));
    var s := CreationInEmptyStore(cfg, Last(tr0), e);
    OnlyFile(cfg, Last(tr0), e, s);
    tr := Served(cfg, tr0, e, s);
  }

  lemma LockedRun(cfg: Config, fd: Fd, path: Path, t: Time) returns (tr: Trace)
    ensures Lawful(cfg, tr) && Last(tr).files.Keys == {path} && Last(tr).counters.space == 0
    ensures var f := Last(tr).files[path]; f.contents == [] && f.size == 0 && f.fdLock == fd && f.fdOpen == {fd}
  {
    tr := LockedFrom(cfg, Start, fd, path, t);
  }

  /** Another client opens the file of that run without locking it. */
  lemma SharedRun(cfg: Config, fd: Fd, other: Fd, path: Path, t: Time) returns (tr: Trace)
    ensures Lawful(cfg, tr) && Last(tr).files.Keys == {path}
    ensures var f := Last(tr).files[path];
            f.path == path && f.contents == [] && f.size == 0 && f.fdLock == fd && f.fdOpen == {fd, other}
    ensures Last(tr).counters.space == 0
  {
    tr := LockedRun(cfg, fd, path, t);
    RunKeepsInv(cfg, tr);
    var s := Last(tr);
    assert FileOk(path, s.files[path]);
    var e := Event(Open(other, path, false, false), t, t, Reply(SA_SUCCESS, [], []));
    tr := Served(cfg, tr, e, s.(files := s.files[path := OpenedBy(s.files[path], other, false, t)]));
  }

  // --------------------------------------------------------- appending to a locked file

  /**
    A request that gets past the client lock of `p`: an append by any opener, of a
    body that `readn` reports and that fits. No check looks at the lock.
   */
  predicate Intrudes(cfg: Config, s: State, req: Request, p: Path)
    requires p in s.files
  {
    && req.Append? && req.path == p && req.fd in s.files[p].fdOpen
    && Readable(|req.data|) && s.files[p].size + |req.data| <= cfg.maxSpace
  }

  /** Somebody other than the holder sends a request while `p` is locked, and `p` stays stored. */
  predicate Foreign(s: State, e: Event, s': State, p: Path) {
    p in s.files && p in s'.files && s.files[p].fdLock != NO_FD && Sender(e.req) != s.files[p].fdLock
  }

  /** A locked file is changed by another client if and only if that client's append intrudes. */
  lemma ForeignChangeIff(cfg: Config, s: State, e: Event, s': State, p: Path)
    requires Inv(cfg, s) && Next(cfg, s, e, s') && Foreign(s, e, s', p)
    ensures s'.files[p].contents != s.files[p].contents <==> Intrudes(cfg, s, e.req, p)
    ensures Intrudes(cfg, s, e.req, p) ==> s'.files[p].contents == s.files[p].contents + e.req.data
  {
    ChangesAreRightful(cfg, s, e, s', p);
    assert FileOk(p, s.files[p]);
    if e.req.Append? && e.req.data != [] && AppendCheck(cfg, s, e.req.fd, e.req.path, e.req.data) == SA_SUCCESS {
      assert FileOk(e.req.path, s.files[e.req.path]);
      var grown := Extended(s.files[e.req.path], e.req.data, e.used);
      GrowKeepsInv(cfg, s, e, grown, |e.req.data|, s');
    }
  }

  /** A locked file leaves by another client's request if and only if that request expels it. */
  lemma ForeignDepartureIff(cfg: Config, s: State, e: Event, s': State, p: Path)
    requires Inv(cfg, s) && Next(cfg, s, e, s')
    requires p in s.files && s.files[p].fdLock != NO_FD && Sender(e.req) != s.files[p].fdLock
    ensures p !in s'.files <==> p in PathsOf(e.reply.expelled)
  {
    if p !in s'.files {
      DeparturesAreRightful(cfg, s, e, s', p);
    }
  }

  /** A lawful run in which another client's append changes a locked file. */
  lemma ForeignAppendRun(cfg: Config, holder: Fd, other: Fd, path: Path, data: seq<Byte>) returns (tr: Trace)
    requires holder != other && Readable(|data|) && |data| <= cfg.maxSpace
    ensures Lawful(cfg, tr) && tr.Then? && Foreign(Last(tr.before), tr.event, tr.state, path)
    ensures tr.event.req == Append(other, path, data)
    ensures Last(tr.before).files[path].contents == [] && Last(tr).files[path].contents == data
  {
    var t := Time(0, 0);
    var tr0 := SharedRun(cfg, holder, other, path, t);
    var s := Last(tr0);
    var e := Event(Append(other, path, data), t, t, Reply(SA_SUCCESS, [], []));
    var big := Grown(s, Extended(s.files[path], data, t), |data|);
    WithoutNone(big.files);
    tr := Served(cfg, tr0, e, big.(counters := NoteSpace(big.counters)));
  }

  /** In no run does anybody but the holder change a locked file. */
  ghost predicate LocksAreHonoured(cfg: Config) {
    forall tr, p | Lawful(cfg, tr) && tr.Then? && Foreign(Last(tr.before), tr.event, tr.state, p) ::
      tr.state.files[p].contents == Last(tr.before).files[p].contents
  }

  /** The client lock is honoured in all runs if and only if the server has no room for a single byte. */
  lemma LocksAreHonouredIff(cfg: Config)
    ensures LocksAreHonoured(cfg) <==> cfg.maxSpace == 0
  {
    if cfg.maxSpace == 0 {
      forall tr, p | Lawful(cfg, tr) && tr.Then? && Foreign(Last(tr.before), tr.event, tr.state, p)
        ensures tr.state.files[p].contents == Last(tr.before).files[p].contents
      {
        RunKeepsInv(cfg, tr.before);
        ForeignChangeIff(cfg, Last(tr.before), tr.event, tr.state, p);
        assert !Readable(0);
      }
    } else {
      var tr := ForeignAppendRun(cfg, 3, 4, [97], [0]);
    }
  }

  // ------------------------------------------------------------ bodies that readn misreports

  /** Everything a whole-file write needs, but for the size of its body. */
  predicate WritePermitted(cfg: Config, s: State, req: Request) {
    && req.Write? && req.path in s.files && req.fd in s.files[req.path].fdOpen
    && s.files[req.path].fdLock == req.fd && s.files[req.path].size == 0 && |req.data| <= cfg.maxSpace
  }

  predicate AppendPermitted(cfg: Config, s: State, req: Request) {
    && req.Append? && req.path in s.files && req.fd in s.files[req.path].fdOpen
    && s.files[req.path].size + |req.data| <= cfg.maxSpace
  }

  /** What is refused for its size alone: the code, and that nothing else happens. */
  predicate Misread(s: State, e: Event, s': State, size: nat) {
    s' == s && e.reply == Reply(if Int(size) == 0 then SA_CLOSE else SA_ERROR, [], [])
  }

  /** A permitted write succeeds if and only if `readn` reports its size; else it is taken for a broken connection. */
  lemma WriteSucceedsIff(cfg: Config, s: State, e: Event, s': State)
    requires Inv(cfg, s) && Next(cfg, s, e, s') && WritePermitted(cfg, s, e.req)
    ensures e.reply.code == SA_SUCCESS <==> Readable(|e.req.data|)
    ensures if Readable(|e.req.data|) then e.req.path in s'.files && s'.files[e.req.path].contents == e.req.data
            else Misread(s, e, s', |e.req.data|)
  {
    assert FileOk(e.req.path, s.files[e.req.path]);
    if Readable(|e.req.data|) {
      GrowKeepsInv(cfg, s, e, Written(s.files[e.req.path], e.req.data, e.used), |e.req.data|, s');
    }
  }

  /** A permitted append succeeds if and only if there is nothing to append or `readn` reports its size. */
  lemma AppendSucceedsIff(cfg: Config, s: State, e: Event, s': State)
    requires Inv(cfg, s) && Next(cfg, s, e, s') && AppendPermitted(cfg, s, e.req)
    ensures e.reply.code == SA_SUCCESS <==> e.req.data == [] || Readable(|e.req.data|)
    ensures if e.req.data == [] then s' == s
            else if Readable(|e.req.data|) then
              e.req.path in s'.files && s'.files[e.req.path].contents == s.files[e.req.path].contents + e.req.data
            else Misread(s, e, s', |e.req.data|)
  {
    assert FileOk(e.req.path, s.files[e.req.path]);
    if Readable(|e.req.data|) {
      GrowKeepsInv(cfg, s, e, Extended(s.files[e.req.path], e.req.data, e.used), |e.req.data|, s');
    }
  }

  /** A write of nothing, and a write of 2^32 bytes, are answered as closed connections. */
  lemma EmptyAndFourGigabyteWrites(cfg: Config, s: State, e: Event, s': State)
    requires Inv(cfg, s) && Next(cfg, s, e, s') && WritePermitted(cfg, s, e.req)
    requires |e.req.data| == 0 || |e.req.data| == TWO_32
    ensures s' == s && e.reply == Reply(SA_CLOSE, [], [])
  {
    WriteSucceedsIff(cfg, s, e, s');
  }

  lemma FourGigabyteAppend(cfg: Config, s: State, e: Event, s': State)
    requires Inv(cfg, s) && Next(cfg, s, e, s') && AppendPermitted(cfg, s, e.req) && |e.req.data| == TWO_32
    ensures s' == s && e.reply == Reply(SA_CLOSE, [], [])
  {
    AppendSucceedsIff(cfg, s, e, s');
  }

  /** A lawful run in which a permitted write is refused for its size alone. */
  lemma RefusedWriteRun(cfg: Config, fd: Fd, path: Path, data: seq<Byte>) returns (tr: Trace)
    requires |data| <= cfg.maxSpace && !Readable(|data|)
    ensures Lawful(cfg, tr) && tr.Then? && tr.event.req == Write(fd, path, data)
    ensures WritePermitted(cfg, Last(tr.before), tr.event.req) && tr.event.reply.code != SA_SUCCESS
  {
    var t := Time(0, 0);
    var tr0 := LockedRun(cfg, fd, path, t);
    tr := Served(cfg, tr0, Event(Write(fd, path, data), t, t, Reply(BodyCheck(|data|), [], [])), Last(tr0));
  }

  /** In all runs every permitted write of at least one byte succeeds. */
  ghost predicate WritesSucceed(cfg: Config) {
    forall tr | Lawful(cfg, tr) && tr.Then? && WritePermitted(cfg, Last(tr.before), tr.event.req) ::
      tr.event.req.data != [] ==> tr.event.reply.code == SA_SUCCESS
  }

  /** They do if and only if the byte limit is below the first size that reads as a failure. */
  lemma WritesSucceedIff(cfg: Config)
    ensures WritesSucceed(cfg) <==> cfg.maxSpace < TWO_32 - 1
  {
    if cfg.maxSpace < TWO_32 - 1 {
      forall tr | Lawful(cfg, tr) && tr.Then? && WritePermitted(cfg, Last(tr.before), tr.event.req)
        ensures tr.event.req.data != [] ==> tr.event.reply.code == SA_SUCCESS
      {
        RunKeepsInv(cfg, tr.before);
        WriteSucceedsIff(cfg, Last(tr.before), tr.event, tr.state);
      }
    } else {
      var data := seq(TWO_32 - 1, _ => 0);
      var tr := RefusedWriteRun(cfg, 3, [97], data);
    }
  }
}
