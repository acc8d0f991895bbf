/**
  What the requests mean to clients, field by field: for every request and every
  state the code, the reply and all that is different afterwards, in terms of the
  files alone and without the functions that StoreSpec computes them with.
 */
module Meaning {
  import opened Clock
  import opened StoreSpec
  import opened Eviction
  import opened StoreRuns
  import S = Shortfalls
  import Q = QueueCache

  /** Nothing happens but the answer. */
  predicate Refused(s: State, e: Event, s': State, code: int) {
    s' == s && e.reply.code == code && e.reply.sent == [] && e.reply.expelled == []
  }

  /** Every file but the one at `p` is as before. */
  ghost predicate OthersSame(s: State, s': State, p: Path) {
    forall q | q != p :: (q in s'.files <==> q in s.files) && (q in s.files ==> s'.files[q] == s.files[q])
  }

  /** The file at `p` stays, with its path, creation stamp and place among the expellable. */
  predicate Stays(s: State, s': State, p: Path) {
    && p in s.files && p in s'.files
    && s'.files[p].path == s.files[p].path && s'.files[p].created == s.files[p].created
    && s'.files[p].canBeExpelled == s.files[p].canBeExpelled
  }

  predicate SameContents(s: State, s': State, p: Path)
    requires p in s.files && p in s'.files
  {
    s'.files[p].contents == s.files[p].contents && s'.files[p].size == s.files[p].size
  }

  // ------------------------------------------------------------- opening and closing

  /** Opening a stored file: refused exactly when the lock is wanted and somebody else has it. */
  lemma Opening(cfg: Config, s: State, e: Event, s': State)
    requires Next(cfg, s, e, s') && e.req.Open? && !e.req.create
    ensures var Open(fd, p, _, lock) := e.req;
            if p !in s.files then Refused(s, e, s', SA_NO_FILE)
            else if lock && s.files[p].fdLock != -1 && s.files[p].fdLock != fd then Refused(s, e, s', SA_ALREADY_LOCKED)
            else
              && e.reply == Reply(SA_SUCCESS, [], [])
              && Stays(s, s', p) && SameContents(s, s', p) && OthersSame(s, s', p) && s'.counters == s.counters
              && s'.files[p].fdOpen == s.files[p].fdOpen + {fd}
              && s'.files[p].fdLock == (if lock then fd else s.files[p].fdLock)
              && s'.files[p].lastUse == e.used
  {
  }

  /** What a creation takes out of the store: nothing, or one file no expellable file precedes. */
  ghost predicate MakesRoom(cfg: Config, s: State, vs: seq<File>) {
    if |s.files| == cfg.maxFiles && s.files.Keys != {} then
      && |vs| == 1 && vs[0].path in s.files && s.files[vs[0].path] == vs[0]
      && ((forall q | q in s.files :: ProperStamps(s.files[q])) ==>
            forall q | q in s.files :: !OlderInstant(cfg.policy, s.files[q], vs[0]))
    else vs == []
  }

  lemma RoomIsMade(cfg: Config, s: State, vs: seq<File>)
    requires Inv(cfg, s) && Evictions(cfg.policy, s.files, vs) && |vs| == (if MustMakeRoom(cfg, s) then 1 else 0)
    ensures MakesRoom(cfg, s, vs)
    ensures forall q :: q in PathsOf(vs) <==> vs != [] && q == vs[0].path
    ensures Bytes(vs) == if vs == [] then 0 else vs[0].size
  {
    if vs != [] {
      EvictionIsExact(cfg.policy, s.files, vs);
      assert vs[..0] == [];
      forall q | q in s.files && forall p | p in s.files :: ProperStamps(s.files[p])
        ensures !OlderInstant(cfg.policy, s.files[q], vs[0])
      {
        assert FileOk(q, s.files[q]);
        assert Without(s.files, []) == s.files;
        OlderIsInstant(cfg.policy, s.files[q], vs[0]);
      }
    }
  }

  /** The reported number of files and its peak, the bytes, and the expulsions. */
  predicate CreationCounted(s: State, vs: seq<File>, s': State) {
    && s'.counters.files == s.counters.files - |vs| + 1
    && s'.counters.space == s.counters.space - (if vs == [] then 0 else vs[0].size)
    && s'.counters.noLru == s.counters.noLru + |vs|
    && s'.counters.maxSpace == s.counters.maxSpace
    && (s.counters.maxFiles >= s'.counters.files ==> s'.counters.maxFiles == s.counters.maxFiles)
    && (s.counters.maxFiles < s'.counters.files ==> s'.counters.maxFiles == s'.counters.files)
  }

  /** Creating a file: refused exactly when the path is taken; at most one file makes room, at the limit only. */
  lemma Creating(cfg: Config, s: State, e: Event, s': State)
    requires Inv(cfg, s) && Next(cfg, s, e, s') && e.req.Open? && e.req.create
    ensures var Open(fd, p, _, lock) := e.req;
            if p in s.files then Refused(s, e, s', SA_EXISTS)
            else
              && e.reply.code == SA_SUCCESS && e.reply.sent == []
              && MakesRoom(cfg, s, e.reply.expelled) && CreationCounted(s, e.reply.expelled, s')
              && (forall q :: q in s'.files <==>
                    q == p || (q in s.files && !(e.reply.expelled != [] && q == e.reply.expelled[0].path)))
              && (forall q | q in s'.files && q != p :: s'.files[q] == s.files[q])
              && s'.files[p] == File(p, [], 0, if lock then fd else -1, {fd}, e.created, e.used, true)
  {
    if e.req.path !in s.files {
      RoomIsMade(cfg, s, e.reply.expelled);
    }
  }

  /** Closing a stored file: the client is no opener any more, and its lock is free. */
  lemma Closing(cfg: Config, s: State, e: Event, s': State)
    requires Next(cfg, s, e, s') && e.req.Close?
    ensures var Close(fd, p) := e.req;
            if p !in s.files then Refused(s, e, s', SA_NO_FILE)
            else
              && e.reply == Reply(SA_SUCCESS, [], [])
              && Stays(s, s', p) && SameContents(s, s', p) && OthersSame(s, s', p) && s'.counters == s.counters
              && s'.files[p].fdOpen == s.files[p].fdOpen - {fd}
              && s'.files[p].fdLock == (if s.files[p].fdLock == fd then -1 else s.files[p].fdLock)
              && s'.files[p].lastUse == s.files[p].lastUse
  {
  }

  /** Closing a connection does that to every stored file. */
  lemma Disconnecting(cfg: Config, s: State, e: Event, s': State)
    requires Next(cfg, s, e, s') && e.req.Disconnect?
    ensures e.reply == Reply(SA_SUCCESS, [], []) && s'.counters == s.counters
    ensures s'.files.Keys == s.files.Keys
    ensures forall p | p in s.files ::
              && Stays(s, s', p) && SameContents(s, s', p)
              && s'.files[p].fdOpen == s.files[p].fdOpen - {e.req.fd}
              && s'.files[p].fdLock == (if s.files[p].fdLock == e.req.fd then -1 else s.files[p].fdLock)
              && s'.files[p].lastUse == s.files[p].lastUse
  {
  }

  // ------------------------------------------------------------- writing and appending

  /** How `readn` reports a body of `size` bytes: 0 for a closed connection, -1 for a failure. */
  predicate ReadsAsClosed(size: nat) {
    size % 0x1_0000_0000 == 0
  }

  predicate ReadsAsFailed(size: nat) {
    size % 0x1_0000_0000 == 0xFFFF_FFFF
  }

  /** Every file but the growing one is as it was or expelled, and the expelled ones were stored as they are. */
  ghost predicate OnlyExpelledLeave(s: State, e: Event, s': State, p: Path) {
    && (forall q :: q in s'.files <==> q in s.files && !Among(e.reply.expelled, q))
    && (forall q | q in s'.files && q != p :: s'.files[q] == s.files[q])
    && (forall i | 0 <= i < |e.reply.expelled| ::
          var v := e.reply.expelled[i]; v.path != p && v.path in s.files && s.files[v.path] == v)
  }

  /** Bytes are made free exactly when the limit demands it, oldest first and not one file more. */
  ghost predicate FreesEnough(cfg: Config, s: State, e: Event, added: nat, p: Path) {
    var vs := e.reply.expelled;
    && (vs == [] <==> s.counters.space + added <= cfg.maxSpace)
    && s.counters.space + added - Bytes(vs) <= cfg.maxSpace
    && (vs != [] ==> s.counters.space + added - Bytes(vs[..|vs|-1]) > cfg.maxSpace)
    && ((forall q | q in s.files :: ProperStamps(s.files[q])) ==>
          && (forall i, j | 0 <= i < j < |vs| :: !OlderInstant(cfg.policy, vs[j], vs[i]))
          && (forall i, q | 0 <= i < |vs| && q in s.files && q != p && !Among(e.reply.expelled, q) ::
                !OlderInstant(cfg.policy, s.files[q], vs[i])))
  }

  predicate GrowthCounted(s: State, e: Event, added: nat, s': State) {
    && s'.counters.files == s.counters.files - |e.reply.expelled|
    && s'.counters.space == s.counters.space + added - Bytes(e.reply.expelled)
    && s'.counters.noLru == s.counters.noLru + |e.reply.expelled|
    && s'.counters.maxFiles == s.counters.maxFiles
    && (s.counters.maxSpace >= s'.counters.space ==> s'.counters.maxSpace == s.counters.maxSpace)
    && (s.counters.maxSpace < s'.counters.space ==> s'.counters.maxSpace == s'.counters.space)
  }

  /** The file at `p` has grown by `data` for the request of `e`. */
  ghost predicate Grew(cfg: Config, s: State, e: Event, s': State, p: Path, data: seq<Byte>) {
    && e.reply.code == SA_SUCCESS && e.reply.sent == []
    && Stays(s, s', p)
    && s'.files[p].contents == s.files[p].contents + data && s'.files[p].size == s.files[p].size + |data|
    && s'.files[p].fdLock == s.files[p].fdLock && s'.files[p].fdOpen == s.files[p].fdOpen
    && s'.files[p].lastUse == e.used
    && OnlyExpelledLeave(s, e, s', p)
    && FreesEnough(cfg, s, e, |data|, p)
    && GrowthCounted(s, e, |data|, s')
  }

  lemma ShieldedVictims(cfg: Config, s: State, grown: File, added: nat, vs: seq<File>)
    requires Inv(cfg, s) && MayGrow(cfg, s, grown, added) && Evictions(cfg.policy, Shielded(s, grown), vs)
    ensures forall i | 0 <= i < |vs| ::
              vs[i].path != grown.path && vs[i].path in s.files && s.files[vs[i].path] == vs[i]
    ensures forall q :: q in PathsOf(vs) <==> Among(vs, q)
  {
    EvictionIsExact(cfg.policy, Shielded(s, grown), vs);
    forall q ensures q in PathsOf(vs) <==> Among(vs, q) {
      PathsOfMember(vs, q);
    }
  }

  lemma ShieldedOldest(cfg: Config, s: State, grown: File, vs: seq<File>)
    requires Inv(cfg, s) && grown.path in s.files && Evictions(cfg.policy, Shielded(s, grown), vs)
    requires forall q | q in s.files :: ProperStamps(s.files[q])
    ensures forall i, j | 0 <= i < j < |vs| :: !OlderInstant(cfg.policy, vs[j], vs[i])
    ensures forall i, q | 0 <= i < |vs| && q in s.files && q != grown.path && !Among(vs, q) ::
              !OlderInstant(cfg.policy, s.files[q], vs[i])
  {
    var m := Shielded(s, grown);
    OldestGoFirst(cfg.policy, m, vs);
    forall i, q | 0 <= i < |vs| && q in s.files && q != grown.path && !Among(vs, q)
      ensures !OlderInstant(cfg.policy, s.files[q], vs[i])
    {
      assert FileOk(q, s.files[q]) && m[q] == s.files[q];
    }
  }

  lemma GrowingFrees(cfg: Config, s: State, e: Event, grown: File, added: nat, s': State)
    requires Inv(cfg, s) && MayGrow(cfg, s, grown, added) && GrowNext(cfg, s, e, grown, added, s')
    ensures FreesEnough(cfg, s, e, added, grown.path)
  {
    if s.counters.space + added > cfg.maxSpace && forall q | q in s.files :: ProperStamps(s.files[q]) {
      ShieldedOldest(cfg, s, grown, e.reply.expelled);
    }
  }

  lemma GrowingLeaves(cfg: Config, s: State, e: Event, grown: File, added: nat, s': State)
    requires Inv(cfg, s) && MayGrow(cfg, s, grown, added) && GrowNext(cfg, s, e, grown, added, s')
    ensures OnlyExpelledLeave(s, e, s', grown.path)
  {
    if s.counters.space + added > cfg.maxSpace {
      ShieldedVictims(cfg, s, grown, added, e.reply.expelled);
    }
  }

  lemma GrowingCounts(cfg: Config, s: State, e: Event, grown: File, added: nat, s': State)
    requires GrowNext(cfg, s, e, grown, added, s')
    ensures GrowthCounted(s, e, added, s') && e.reply.code == SA_SUCCESS && e.reply.sent == []
  {
  }

  lemma Growing(cfg: Config, s: State, e: Event, grown: File, data: seq<Byte>, s': State)
    requires Inv(cfg, s) && MayGrow(cfg, s, grown, |data|) && GrowNext(cfg, s, e, grown, |data|, s')
    requires var f := s.files[grown.path];
             grown == f.(contents := f.contents + data, size := f.size + |data|, lastUse := e.used)
    ensures Grew(cfg, s, e, s', grown.path, data)
  {
    GrowKeepsInv(cfg, s, e, grown, |data|, s');
    GrowingFrees(cfg, s, e, grown, |data|, s');
    GrowingLeaves(cfg, s, e, grown, |data|, s');
    GrowingCounts(cfg, s, e, grown, |data|, s');
  }

  /** The code of a whole-file write: that of the first thing that is wrong. */
  function WriteCode(cfg: Config, s: State, fd: Fd, p: Path, size: nat): int {
    if ReadsAsClosed(size) then SA_CLOSE
    else if ReadsAsFailed(size) then SA_ERROR
    else if p !in s.files then SA_NO_FILE
    else if fd !in s.files[p].fdOpen then SA_NO_OPEN
    else if s.files[p].fdLock != fd then SA_NOT_LOCKED
    else if |s.files[p].contents| > 0 then SA_NOT_EMPTY
    else if size > cfg.maxSpace then SA_TOO_BIG
    else SA_SUCCESS
  }

  /** A whole-file write: refused with the first thing that is wrong, or the file is the data. */
  lemma Writing(cfg: Config, s: State, e: Event, s': State)
    requires Inv(cfg, s) && Next(cfg, s, e, s') && e.req.Write?
    ensures var Write(fd, p, data) := e.req;
            var code := WriteCode(cfg, s, fd, p, |data|);
            if code != SA_SUCCESS then Refused(s, e, s', code)
            else Grew(cfg, s, e, s', p, data) && s'.files[p].contents == data
  {
    var Write(fd, p, data) := e.req;
    if p in s.files {
      assert FileOk(p, s.files[p]);
    }
    if WriteCheck(cfg, s, fd, p, data) == SA_SUCCESS {
      Growing(cfg, s, e, Written(s.files[p], data, e.used), data, s');
    }
  }

  /** The code of an append, which asks for no lock. */
  function AppendCode(cfg: Config, s: State, fd: Fd, p: Path, size: nat): int {
    if size == 0 then SA_SUCCESS
    else if ReadsAsClosed(size) then SA_CLOSE
    else if ReadsAsFailed(size) then SA_ERROR
    else if p !in s.files then SA_NO_FILE
    else if fd !in s.files[p].fdOpen then SA_NO_OPEN
    else if |s.files[p].contents| + size > cfg.maxSpace then SA_TOO_BIG
    else SA_SUCCESS
  }

  /** An append: nothing to do, refused with the first thing that is wrong, or the data comes at the end. */
  lemma Appending(cfg: Config, s: State, e: Event, s': State)
    requires Inv(cfg, s) && Next(cfg, s, e, s') && e.req.Append?
    ensures var Append(fd, p, data) := e.req;
            var code := AppendCode(cfg, s, fd, p, |data|);
            if data == [] || code != SA_SUCCESS then Refused(s, e, s', code)
            else Grew(cfg, s, e, s', p, data)
  {
    var Append(fd, p, data) := e.req;
    if p in s.files {
      assert FileOk(p, s.files[p]);
    }
    if data != [] && AppendCheck(cfg, s, fd, p, data) == SA_SUCCESS {
      Growing(cfg, s, e, Extended(s.files[p], data, e.used), data, s');
    }
  }

  // --------------------------------------------------------------- reading and removing

  /** What is sent of a file is its path, all of its bytes, and their number. */
  predicate Shows(s: State, sent: Payload) {
    && sent.path in s.files
    && sent.contents == s.files[sent.path].contents && sent.size == |s.files[sent.path].contents|
  }

  /** A read sends the requested file as it is, to openers only. */
  lemma Reading(cfg: Config, s: State, e: Event, s': State)
    requires Inv(cfg, s) && Next(cfg, s, e, s') && e.req.Read?
    ensures var Read(fd, p) := e.req;
            if p !in s.files then Refused(s, e, s', SA_NO_FILE)
            else if fd !in s.files[p].fdOpen then Refused(s, e, s', SA_NO_OPEN)
            else
              && e.reply.code == SA_SUCCESS && e.reply.expelled == []
              && |e.reply.sent| == 1 && e.reply.sent[0].path == p && Shows(s, e.reply.sent[0])
              && Stays(s, s', p) && SameContents(s, s', p) && OthersSame(s, s', p) && s'.counters == s.counters
              && s'.files[p].fdOpen == s.files[p].fdOpen && s'.files[p].fdLock == s.files[p].fdLock
              && s'.files[p].lastUse == e.used
  {
    if e.req.path in s.files {
      assert FileOk(e.req.path, s.files[e.req.path]);
    }
  }

  /** A read-many sends as many distinct stored files as there are, or as it asks for, and changes nothing. */
  lemma ReadingMany(cfg: Config, s: State, e: Event, s': State)
    requires Inv(cfg, s) && Next(cfg, s, e, s') && e.req.ReadN?
    ensures s' == s && e.reply.code == SA_SUCCESS && e.reply.expelled == []
    ensures 0 < e.req.n <= |s.files| ==> |e.reply.sent| == e.req.n
    ensures e.req.n <= 0 || e.req.n > |s.files| ==> |e.reply.sent| == |s.files|
    ensures forall i | 0 <= i < |e.reply.sent| :: Shows(s, e.reply.sent[i])
    ensures forall i, j | 0 <= i < j < |e.reply.sent| :: e.reply.sent[i].path != e.reply.sent[j].path
  {
    forall i | 0 <= i < |e.reply.sent| ensures Shows(s, e.reply.sent[i]) {
      assert FileOk(e.reply.sent[i].path, s.files[e.reply.sent[i].path]);
    }
  }

  /** A removal takes the file out for an opener who holds its lock; there is no error for a missing file. */
  lemma Removing(cfg: Config, s: State, e: Event, s': State)
    requires Next(cfg, s, e, s') && e.req.Remove?
    ensures var Remove(fd, p) := e.req;
            if p !in s.files then Refused(s, e, s', SA_SUCCESS)
            else if fd !in s.files[p].fdOpen then Refused(s, e, s', SA_NO_OPEN)
            else if s.files[p].fdLock != fd then Refused(s, e, s', SA_NOT_LOCKED)
            else
              && e.reply == Reply(SA_SUCCESS, [], [])
              && p !in s'.files && OthersSame(s, s', p)
              && s'.counters.files == s.counters.files - 1
              && s'.counters.space == s.counters.space - s.files[p].size
              && s'.counters.noLru == s.counters.noLru
              && s'.counters.maxFiles == s.counters.maxFiles && s'.counters.maxSpace == s.counters.maxSpace
  {
  }

  // ------------------------------------------------------------------------------ runs

  /** A client can tell the reasons of a refusal apart. */
  lemma CodesTellApart()
    ensures var codes := [SA_SUCCESS, SA_ERROR, SA_CLOSE, SA_EXISTS, SA_NO_FILE, SA_ALREADY_LOCKED,
                          SA_NOT_LOCKED, SA_NOT_EMPTY, SA_TOO_BIG, SA_NO_OPEN];
            codes == [0, -1, -2, -10, -11, -12, -20, -21, -22, -23]
            && forall i, j | 0 <= i < j < |codes| :: codes[i] != codes[j]
  {
  }

  /** A run in which a lock is given up by closing the file and taken by the next client that asks for it. */
  lemma LockChangesHands(cfg: Config, fd: Fd, other: Fd, p: Path) returns (locked: Trace, closed: Trace, tr: Trace)
    ensures Lawful(cfg, tr) && tr.Then? && tr.before == closed && closed.Then? && closed.before == locked
    ensures p in Last(locked).files && p in Last(closed).files && p in Last(tr).files
    ensures Last(locked).files[p].fdLock == fd && Last(closed).files[p].fdLock == -1
    ensures Last(tr).files[p].fdLock == other
    ensures closed.event.req == Close(fd, p) && closed.event.reply.code == 0
    ensures tr.event.req == Open(other, p, false, true) && tr.event.reply.code == 0
  {
    var t := Time(0, 0);
    locked := S.LockedRun(cfg, fd, p, t);
    var s := Last(locked);
    var e := Event(Close(fd, p), t, t, Reply(SA_SUCCESS, [], []));
    closed := S.Served(cfg, locked, e, s.(files := s.files[p := ClosedBy(s.files[p], fd)]));
    s := Last(closed);
    e := Event(Open(other, p, false, true), t, t, Reply(SA_SUCCESS, [], []));
    tr := S.Served(cfg, closed, e, s.(files := s.files[p := OpenedBy(s.files[p], other, true, t)]));
  }

  /**
    Replacement over whole runs, in nanoseconds: as long as the clock advances, no
    file that outlives an eviction was last used, or under FIFO created, before a
    file that it expels.
   */
  lemma OldestAreExpelled(cfg: Config, tr: Trace, v: File, q: Path)
    requires Lawful(cfg, tr) && Q.Ticks(tr) && tr.Then? && v in tr.event.reply.expelled
    requires q in Last(tr.before).files && q in tr.state.files
    requires !(tr.event.req.Write? || tr.event.req.Append?) || q != tr.event.req.path
    ensures var f := Last(tr.before).files[q];
            match cfg.policy
            case LRU => Nanos(v.lastUse) <= Nanos(f.lastUse)
            case FIFO => Nanos(v.created) <= Nanos(f.created)
  {
    var s, e := Last(tr.before), tr.event;
    RunKeepsInv(cfg, tr.before);
    Q.TickIsAhead(cfg, tr);
    assert forall p | p in s.files :: ProperStamps(s.files[p]);
    var i :| 0 <= i < |e.reply.expelled| && e.reply.expelled[i] == v;
    Expels(cfg, s, e, tr.state);
  }

  /** Only creations, writes and appends expel files. */
  lemma Expels(cfg: Config, s: State, e: Event, s': State)
    requires Inv(cfg, s) && Next(cfg, s, e, s') && e.reply.expelled != []
    requires forall p | p in s.files :: ProperStamps(s.files[p])
    ensures e.req.Open? || e.req.Write? || e.req.Append?
    ensures forall i, q ::
              0 <= i < |e.reply.expelled| && q in s.files && q in s'.files && (e.req.Open? || q != e.req.path) ==>
              !OlderInstant(cfg.policy, s.files[q], e.reply.expelled[i])
  {
    if e.req.Open? {
      CreationExpels(cfg, s, e, s');
    } else if e.req.Write? {
      Writing(cfg, s, e, s');
    } else if e.req.Append? {
      Appending(cfg, s, e, s');
    }
  }

  lemma CreationExpels(cfg: Config, s: State, e: Event, s': State)
    requires Inv(cfg, s) && Next(cfg, s, e, s') && e.req.Open? && e.reply.expelled != []
    requires forall p | p in s.files :: ProperStamps(s.files[p])
    ensures forall i, q | 0 <= i < |e.reply.expelled| && q in s.files ::
              !OlderInstant(cfg.policy, s.files[q], e.reply.expelled[i])
  {
    if e.req.create {
      Creating(cfg, s, e, s');
    }
  }

  /** The codes for which a worker gives its client up come from misread bodies alone. */
  lemma CodesThatClose(cfg: Config, s: State, e: Event, s': State)
    requires Inv(cfg, s) && Next(cfg, s, e, s')
    ensures e.reply.code == -1 || e.reply.code == -2 <==>
            && (e.req.Write? || (e.req.Append? && e.req.data != []))
            && (ReadsAsClosed(|e.req.data|) || ReadsAsFailed(|e.req.data|))
  {
    match e.req {
      case Open(_, _, create, _) =>
        if create {
          Creating(cfg, s, e, s');
        } else {
          Opening(cfg, s, e, s');
        }
      case Close(_, _) => Closing(cfg, s, e, s');
      case Write(_, _, _) => Writing(cfg, s, e, s');
      case Append(_, _, _) => Appending(cfg, s, e, s');
      case Read(_, _) => Reading(cfg, s, e, s');
      case ReadN(_) => ReadingMany(cfg, s, e, s');
      case Remove(_, _) => Removing(cfg, s, e, s');
      case Disconnect(_) => Disconnecting(cfg, s, e, s');
    }
  }
}
