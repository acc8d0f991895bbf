/**
  The request handlers and the replacement algorithm as the server runs them
  between taking and releasing `files_mtx`: a mutable store whose methods follow
  the C functions branch by branch and are proved against StoreSpec.
 */
module FileStore {
  import opened Basics
  import opened Clock
  import opened Ints
  import opened StoreSpec
  import opened Eviction

  ghost predicate Enumerates(m: map<Path, File>, order: seq<Path>) {
    && (forall p :: p in order <==> p in m)
    && (forall i, j | 0 <= i < j < |order| :: order[i] != order[j])
  }

  /** One pass of a fresh hash iterator, in an order the caller does not control. */
  method Iterate(m: map<Path, File>) returns (order: seq<Path>)
    ensures Enumerates(m, order)
    ensures |order| == |m|
  {
    order := [];
    var left := m.Keys;
    assert m.Keys == left;
    while left != {}
      invariant left <= m.Keys
      invariant forall p :: p in order <==> p in m.Keys - left
      invariant forall i, j | 0 <= i < j < |order| :: order[i] != order[j]
      invariant |order| + |left| == |m.Keys|
      decreases |left|
    {
      var p :| p in left;
      assert p !in order;
      order := order + [p];
      left := left - {p};
    }
  }

  /** Installed, counted and evicted: noting the space is all that is left to do. */
  lemma GrowEnds(cfg: Config, s: State, req: Request, used: Time, grown: File, added: nat, vs: seq<File>, now: State)
    requires grown.path in s.files
    requires var need := s.counters.space + added - cfg.maxSpace;
             if need > 0 then ExpelsUntil(cfg.policy, Shielded(s, grown), need, vs) else vs == []
    requires now.files == Without(Grown(s, grown, added).files, vs)
    requires now.counters == AfterExpelling(Grown(s, grown, added).counters, vs)
    ensures GrowNext(cfg, s, Event(req, used, used, Reply(SA_SUCCESS, [], vs)), grown, added,
                     now.(counters := NoteSpace(now.counters)))
  {
  }

  /** No expellable file was last used, or under FIFO created, at an earlier instant than `v`. */
  ghost predicate OldestOf(policy: Policy, m: map<Path, File>, v: File) {
    (forall p | p in m && m[p].canBeExpelled :: ProperStamps(m[p])) ==>
      forall p | p in m && m[p].canBeExpelled ::
        if policy == LRU then Nanos(v.lastUse) <= Nanos(m[p].lastUse) else Nanos(v.created) <= Nanos(m[p].created)
  }

  lemma VictimIsOldest(policy: Policy, m: map<Path, File>, v: File)
    requires Victim(policy, m, v)
    ensures OldestOf(policy, m, v)
  {
    if forall p | p in m && m[p].canBeExpelled :: ProperStamps(m[p]) {
      forall p | p in m && m[p].canBeExpelled ensures !OlderInstant(policy, m[p], v) {
        OlderIsInstant(policy, m[p], v);
      }
    }
  }

  /** The growing file outlasts the eviction, and lowering its shield leaves what the eviction should leave. */
  lemma Unshielded(cfg: Config, s: State, grown: File, added: nat, vs: seq<File>)
    requires MayGrow(cfg, s, grown, added) && Evictions(cfg.policy, Shielded(s, grown), vs)
    ensures var left := Without(Shielded(s, grown), vs);
            grown.path in left
            && left[grown.path := left[grown.path].(canBeExpelled := true)] == Without(Grown(s, grown, added).files, vs)
  {
    ShieldedStays(cfg.policy, s, grown, vs);
  }

  /** The files when the sweep for `fd` has been to those in `done`. */
  ghost function SweptTo(m: map<Path, File>, done: seq<Path>, fd: Fd): map<Path, File> {
    map p | p in m :: if p in done then ClosedBy(m[p], fd) else m[p]
  }

  lemma SweepOneMore(m: map<Path, File>, order: seq<Path>, i: nat, fd: Fd)
    requires Enumerates(m, order) && i < |order|
    ensures order[i] in m && SweptTo(m, order[..i], fd)[order[i]] == m[order[i]]
    ensures SweptTo(m, order[..i+1], fd) == SweptTo(m, order[..i], fd)[order[i] := ClosedBy(m[order[i]], fd)]
  {
    assert order[..i+1] == order[..i] + [order[i]];
  }

  lemma SweepDone(m: map<Path, File>, order: seq<Path>, fd: Fd)
    requires Enumerates(m, order)
    ensures SweptTo(m, order[..|order|], fd) == AllClosedBy(m, fd)
  {
    assert order[..|order|] == order;
  }

  class Store {
    const cfg: Config
    var files: map<Path, File>
    var count: Counters

    function Value(): State
      reads this
    {
      State(files, count)
    }

    ghost predicate Valid()
      reads this
    {
      Inv(cfg, Value())
    }

    constructor (cfg: Config)
      ensures this.cfg == cfg && Value() == INITIAL && Valid()
    {
      this.cfg := cfg;
      files := map[];
      count := Counters(0, 0, 0, 0, 0);
    }

    // ------------------------------------------------------------- replacement

    /** `expell_single_file`; the caller must leave an expellable file, if any file. */
    method ExpellSingleFile() returns (expelled: Option<File>)
      requires forall p | p in files :: files[p].path == p
      requires files != map[] ==> exists p :: p in files && files[p].canBeExpelled
      modifies this
      ensures old(files) == map[] ==> expelled == None && Value() == old(Value())
      ensures old(files) != map[] ==>
                && expelled.Some?
                && Victim(cfg.policy, old(files), expelled.value)
                && files == old(files) - {expelled.value.path}
                && count == OneExpelled(old(count), expelled.value)
                && OldestOf(cfg.policy, old(files), expelled.value)
    {
      if |files| == 0 {
        return None;
      }
      var least: Option<File> := None;
      var order := Iterate(files);
      var i := 0;
      while i < |order|
        invariant 0 <= i <= |order|
        invariant Value() == old(Value())
        invariant least.Some? ==>
                    least.value.path in files && files[least.value.path] == least.value && least.value.canBeExpelled
        invariant forall k | 0 <= k < i && files[order[k]].canBeExpelled ::
                    least.Some? && !Older(cfg.policy, files[order[k]], least.value)
      {
        var current := files[order[i]];
        if current.canBeExpelled && (least.None? || Older(cfg.policy, current, least.value)) {
          least := Some(current);
        }
        i := i + 1;
      }
      forall p | p in files && files[p].canBeExpelled
        ensures least.Some? && !Older(cfg.policy, files[p], least.value)
      {
        var k :| 0 <= k < |order| && order[k] == p;
      }
      VictimIsOldest(cfg.policy, files, least.value);
      files := files - {least.value.path};
      count := count.(files := count.files - 1, space := count.space - least.value.size, noLru := count.noLru + 1);
      expelled := least;
    }

    /** One round of the loop of `expell_multiple_files`: it always finds a victim. */
    method ExpellAnother(ghost m0: map<Path, File>, ghost need: int, ghost shield: Path, ghost expelled: seq<File>)
        returns (victim: File)
      requires OnlyShielded(m0, shield) && m0[shield].size + need <= TotalSize(m0)
      requires ExpelSoFar(cfg.policy, m0, need, expelled, files) && Bytes(expelled) < need
      modifies this
      ensures ExpelSoFar(cfg.policy, m0, need, expelled + [victim], files)
      ensures Bytes(expelled + [victim]) == Bytes(expelled) + victim.size
      ensures count == OneExpelled(old(count), victim)
      ensures |files| < |old(files)|
    {
      ghost var other := ExpelCandidate(cfg.policy, m0, need, shield, expelled);
      ShieldLasts(cfg.policy, m0, shield, expelled);
      ghost var before := files;
      var least := ExpellSingleFile();
      victim := least.value;
      ExpelRound(cfg.policy, m0, need, expelled, before, victim);
      assert files.Keys == before.Keys - {victim.path};
    }

    /** `expell_multiple_files`, called with room enough outside the shielded file. */
    method ExpellMultipleFiles(sizeToFree: nat, ghost shield: Path) returns (rc: int, expelled: seq<File>)
      requires OnlyShielded(files, shield) && count.space == TotalSize(files)
      requires sizeToFree <= count.space ==> files[shield].size + sizeToFree <= count.space
      modifies this
      ensures rc == (if sizeToFree > old(count).space then -1 else 0)
      ensures rc == -1 ==> expelled == []
      ensures rc == 0 ==> ExpelsUntil(cfg.policy, old(files), sizeToFree, expelled)
      ensures files == Without(old(files), expelled)
      ensures count == AfterExpelling(old(count), expelled)
    {
      var freed := 0;
      expelled := [];
      assert Without(files, []) == files;
      if sizeToFree > count.space {
        return -1, [];
      }
      ghost var m0 := files;
      while freed < sizeToFree
        invariant ExpelSoFar(cfg.policy, m0, sizeToFree, expelled, files)
        invariant freed == Bytes(expelled)
        invariant count == AfterExpelling(old(count), expelled)
        decreases |files|
      {
        ghost var before := expelled;
        var victim := ExpellAnother(m0, sizeToFree, shield, expelled);
        ExpelledOneMore(old(count), before, victim);
        expelled := expelled + [victim];
        freed := freed + victim.size;
      }
      rc := 0;
    }

    // ---------------------------------------------------------------- handlers

    /** Room for one more file: `expell_single_file` when the count limit is met. */
    method MakeRoom() returns (gone: seq<File>)
      requires Valid()
      modifies this
      ensures |gone| == (if MustMakeRoom(cfg, old(Value())) then 1 else 0)
      ensures Evictions(cfg.policy, old(files), gone)
      ensures files == Without(old(files), gone)
      ensures count == AfterExpelling(old(count), gone)
    {
      gone := [];
      ghost var m0, c0 := files, count;
      assert Without(m0, []) == m0;
      if count.files == cfg.maxFiles {
        if files != map[] {
          ghost var p :| p in files;
          assert FileOk(p, files[p]);
        }
        var expelled := ExpellSingleFile();
        if expelled.Some? {
          EvictOneMore(cfg.policy, m0, [], expelled.value);
          WithoutOneMore(m0, [], expelled.value);
          ExpelledOneMore(c0, [], expelled.value);
          assert [] + [expelled.value] == [expelled.value];
          gone := [expelled.value];
        }
      }
    }

    /** The creating half of `open_file`, with `create_file`. */
    method CreateFile(fd: Fd, path: Path, lock: bool, created: Time, used: Time) returns (reply: Reply)
      requires Valid()
      modifies this
      ensures CreateNext(cfg, old(Value()), Event(Open(fd, path, true, lock), created, used, reply), Value())
    {
      if path in files {
        return Reply(SA_EXISTS, [], []);
      }
      var file := NewFile(path, fd, lock, created, used);
      var gone := MakeRoom();
      file := file.(canBeExpelled := true);
      files := files[path := file];
      count := count.(files := count.files + 1);
      if count.files > count.maxFiles {
        count := count.(maxFiles := count.files);
      }
      reply := Reply(SA_SUCCESS, [], gone);
    }

    /** `open_file`. */
    method OpenFile(fd: Fd, path: Path, create: bool, lock: bool, created: Time, used: Time) returns (reply: Reply)
      requires Valid()
      modifies this
      ensures Next(cfg, old(Value()), Event(Open(fd, path, create, lock), created, used, reply), Value())
      ensures Valid()
    {
      ghost var s := Value();
      if create {
        reply := CreateFile(fd, path, lock, created, used);
        CreateKeepsInv(cfg, s, Event(Open(fd, path, create, lock), created, used, reply), Value());
        return;
      }
      if path !in files {
        return Reply(SA_NO_FILE, [], []);
      }
      var file := files[path];
      if lock {
        if file.fdLock != NO_FD && file.fdLock != fd {
          return Reply(SA_ALREADY_LOCKED, [], []);
        }
        file := file.(fdLock := fd);
      }
      if fd !in file.fdOpen {
        file := file.(fdOpen := file.fdOpen + {fd});
      }
      file := file.(lastUse := used);
      assert file == OpenedBy(files[path], fd, lock, used);
      files := files[path := file];
      reply := Reply(SA_SUCCESS, [], []);
      NextKeepsInv(cfg, s, Event(Open(fd, path, create, lock), created, used, reply), Value());
    }

    /** `close_file`. */
    method CloseFile(fd: Fd, path: Path, used: Time) returns (reply: Reply)
      requires Valid()
      modifies this
      ensures Next(cfg, old(Value()), Event(Close(fd, path), used, used, reply), Value())
      ensures Valid()
    {
      ghost var s := Value();
      if path !in files {
        return Reply(SA_NO_FILE, [], []);
      }
      var file := files[path];
      file := file.(fdOpen := file.fdOpen - {fd});
      if file.fdLock == fd {
        file := file.(fdLock := NO_FD);
      }
      files := files[path := file];
      reply := Reply(SA_SUCCESS, [], []);
      NextKeepsInv(cfg, s, Event(Close(fd, path), used, used, reply), Value());
    }

    /** The common tail of `write_file` and `append_to_file`: install, count, evict. */
    method Grow(grown: File, added: nat, ghost req: Request, ghost used: Time) returns (expelled: seq<File>)
      requires Valid() && MayGrow(cfg, Value(), grown, added)
      modifies this
      ensures GrowNext(cfg, old(Value()), Event(req, used, used, Reply(SA_SUCCESS, [], expelled)), grown, added,
              Value())
    {
      ghost var s := Value();
      files := files[grown.path := grown];
      count := count.(space := count.space + added);
      ghost var big := Value();
      var sizeToRemove := count.space - cfg.maxSpace;
      expelled := [];
      if sizeToRemove > 0 {
        expelled := EvictFor(grown, added, s);
      } else {
        assert Without(files, []) == files;
      }
      GrowEnds(cfg, s, req, used, grown, added, expelled, Value());
      if count.space > count.maxSpace {
        count := count.(maxSpace := count.space);
      }
    }

    /** The guarded eviction inside `Grow`, between clearing and setting `can_be_expelled`. */
    method EvictFor(grown: File, added: nat, ghost s: State) returns (expelled: seq<File>)
      requires Inv(cfg, s) && MayGrow(cfg, s, grown, added) && Value() == Grown(s, grown, added)
      requires count.space > cfg.maxSpace
      modifies this
      ensures ExpelsUntil(cfg.policy, Shielded(s, grown), s.counters.space + added - cfg.maxSpace, expelled)
      ensures files == Without(Grown(s, grown, added).files, expelled)
      ensures count == AfterExpelling(old(count), expelled)
    {
      ShieldedTotal(cfg, s, grown, added);
      files := files[grown.path := files[grown.path].(canBeExpelled := false)];
      assert files == Shielded(s, grown);
      var rc;
      rc, expelled := ExpellMultipleFiles(count.space - cfg.maxSpace, grown.path);
      Unshielded(cfg, s, grown, added, expelled);
      files := files[grown.path := files[grown.path].(canBeExpelled := true)];
    }

    /** `write_file`. A body whose size is 0 as an `int` reads as a closed connection, -1 as a failure. */
    method WriteFile(fd: Fd, path: Path, data: seq<Byte>, used: Time) returns (reply: Reply)
      requires Valid()
      modifies this
      ensures Next(cfg, old(Value()), Event(Write(fd, path, data), used, used, reply), Value())
      ensures Valid()
    {
      ghost var s := Value();
      if Int(|data|) == -1 {
        return Reply(SA_ERROR, [], []);
      }
      if Int(|data|) == 0 {
        return Reply(SA_CLOSE, [], []);
      }
      if path !in files {
        return Reply(SA_NO_FILE, [], []);
      }
      var file := files[path];
      if fd !in file.fdOpen {
        return Reply(SA_NO_OPEN, [], []);
      }
      if file.fdLock != fd {
        return Reply(SA_NOT_LOCKED, [], []);
      }
      if file.size != 0 {
        return Reply(SA_NOT_EMPTY, [], []);
      }
      if |data| > cfg.maxSpace {
        return Reply(SA_TOO_BIG, [], []);
      }
      file := file.(size := |data|, contents := data, lastUse := used);
      var expelled := Grow(file, |data|, Write(fd, path, data), used);
      reply := Reply(SA_SUCCESS, [], expelled);
      assert Next(cfg, s, Event(Write(fd, path, data), used, used, reply), Value());
      NextKeepsInv(cfg, s, Event(Write(fd, path, data), used, used, reply), Value());
    }

    /** `append_to_file`. */
    method AppendToFile(fd: Fd, path: Path, data: seq<Byte>, used: Time) returns (reply: Reply)
      requires Valid()
      modifies this
      ensures Next(cfg, old(Value()), Event(Append(fd, path, data), used, used, reply), Value())
      ensures Valid()
    {
      ghost var s := Value();
      if |data| == 0 {
        return Reply(SA_SUCCESS, [], []);
      }
      if Int(|data|) == -1 {
        return Reply(SA_ERROR, [], []);
      }
      if Int(|data|) == 0 {
        return Reply(SA_CLOSE, [], []);
      }
      if path !in files {
        return Reply(SA_NO_FILE, [], []);
      }
      var file := files[path];
      if fd !in file.fdOpen {
        return Reply(SA_NO_OPEN, [], []);
      }
      if file.size + |data| > cfg.maxSpace {
        return Reply(SA_TOO_BIG, [], []);
      }
      file := file.(contents := file.contents + data, size := file.size + |data|, lastUse := used);
      var expelled := Grow(file, |data|, Append(fd, path, data), used);
      reply := Reply(SA_SUCCESS, [], expelled);
      assert Next(cfg, s, Event(Append(fd, path, data), used, used, reply), Value());
      NextKeepsInv(cfg, s, Event(Append(fd, path, data), used, used, reply), Value());
    }

    /** `read_file`. */
    method ReadFile(fd: Fd, path: Path, used: Time) returns (reply: Reply)
      requires Valid()
      modifies this
      ensures Next(cfg, old(Value()), Event(Read(fd, path), used, used, reply), Value())
      ensures Valid()
    {
      ghost var s := Value();
      if path !in files {
        return Reply(SA_NO_FILE, [], []);
      }
      var file := files[path];
      if fd !in file.fdOpen {
        return Reply(SA_NO_OPEN, [], []);
      }
      file := file.(lastUse := used);
      files := files[path := file];
      reply := Reply(SA_SUCCESS, [PayloadOf(file)], []);
      NextKeepsInv(cfg, s, Event(Read(fd, path), used, used, reply), Value());
    }

    /** `read_n_files`: the first N files of an iteration, or all of them. */
    method ReadNFiles(n: int, used: Time) returns (reply: Reply)
      requires Valid()
      ensures Next(cfg, Value(), Event(ReadN(n), used, used, reply), Value())
    {
      var left := n;
      if left <= 0 {
        left := count.files;
      }
      var order := Iterate(files);
      var sent: seq<Payload> := [];
      var i := 0;
      while left > 0 && i < |order|
        invariant 0 <= i <= |order| && |sent| == i
        invariant left == (if n <= 0 then count.files else n) - i
        invariant left >= 0
        invariant forall k | 0 <= k < i :: sent[k].path == order[k] && sent[k] == PayloadOf(files[order[k]])
        decreases |order| - i
      {
        sent := sent + [PayloadOf(files[order[i]])];
        left := left - 1;
        i := i + 1;
      }
      reply := Reply(SA_SUCCESS, sent, []);
    }

    /** `remove_file`. */
    method RemoveFile(fd: Fd, path: Path, used: Time) returns (reply: Reply)
      requires Valid()
      modifies this
      ensures Next(cfg, old(Value()), Event(Remove(fd, path), used, used, reply), Value())
      ensures Valid()
    {
      ghost var s := Value();
      if path !in files {
        return Reply(SA_SUCCESS, [], []);
      }
      var file := files[path];
      if fd !in file.fdOpen {
        return Reply(SA_NO_OPEN, [], []);
      }
      if file.fdLock != fd {
        return Reply(SA_NOT_LOCKED, [], []);
      }
      count := count.(files := count.files - 1, space := count.space - file.size);
      files := files - {path};
      reply := Reply(SA_SUCCESS, [], []);
      NextKeepsInv(cfg, s, Event(Remove(fd, path), used, used, reply), Value());
    }

    /** One visit of the loop of `close_client`. */
    method ForgetIn(p: Path, fd: Fd)
      requires p in files
      modifies this
      ensures files == old(files)[p := ClosedBy(old(files)[p], fd)]
      ensures count == old(count)
    {
      var file := files[p];
      if file.fdLock == fd {
        file := file.(fdLock := NO_FD);
      }
      file := file.(fdOpen := file.fdOpen - {fd});
      files := files[p := file];
    }

    /** The loop of `close_client` over the stored files. */
    method SweepFiles(fd: Fd)
      modifies this
      ensures files == AllClosedBy(old(files), fd)
      ensures count == old(count)
    {
      ghost var m := files;
      var order := Iterate(files);
      var i := 0;
      while i < |order|
        invariant 0 <= i <= |order|
        invariant files == SweptTo(m, order[..i], fd) && count == old(count)
      {
        SweepOneMore(m, order, i, fd);
        ForgetIn(order[i], fd);
        i := i + 1;
      }
      SweepDone(m, order, fd);
    }

    /** `close_client`. */
    method CloseClient(fd: Fd, used: Time) returns (reply: Reply)
      requires Valid()
      modifies this
      ensures Next(cfg, old(Value()), Event(Disconnect(fd), used, used, reply), Value())
      ensures Valid()
    {
      DisconnectKeepsInv(cfg, Value(), fd);
      SweepFiles(fd);
      reply := Reply(SA_SUCCESS, [], []);
    }
  }
}
