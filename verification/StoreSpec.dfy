/**
  The file store as a value: its state, the requests it serves and, for every
  request, the relation between the state before, the event (request, clock
  readings, reply) and the state after. The imperative handlers of FileStore
  and the interleaved handlers of Protocol are both proved against `Next`.
 */
module StoreSpec {
  import opened Basics
  import opened Clock
  import opened Ints

  type Byte = b: int | 0 <= b < 256
  /** A character of a C string: not NUL. */
  type PathByte = b: int | 1 <= b < 256 witness 1
  type Path = seq<PathByte>
  type Fd = nat

  const NO_FD: int := -1

  // Reply codes (includes/server-api-protocol.h).
  const SA_SUCCESS := 0
  const SA_ERROR := -1
  const SA_CLOSE := -2
  const SA_EXISTS := -10
  const SA_NO_FILE := -11
  const SA_ALREADY_LOCKED := -12
  const SA_NOT_LOCKED := -20
  const SA_NOT_EMPTY := -21
  const SA_TOO_BIG := -22
  const SA_NO_OPEN := -23

  /** A `file_t` without its reader-writer lock (see RwLock). */
  datatype File = File(
    path: Path,
    contents: seq<Byte>,
    size: nat,
    fdLock: int,
    fdOpen: set<int>,
    created: Time,
    lastUse: Time,
    canBeExpelled: bool)

  /** The part of `server_state_t` that the handlers keep. */
  datatype Counters = Counters(files: int, space: int, noLru: int, maxFiles: int, maxSpace: int)

  datatype State = State(files: map<Path, File>, counters: Counters)

  datatype Config = Config(maxFiles: nat, maxSpace: nat, policy: Policy)

  datatype Request =
    | Open(fd: Fd, path: Path, create: bool, lock: bool)
    | Close(fd: Fd, path: Path)
    | Write(fd: Fd, path: Path, data: seq<Byte>)
    | Append(fd: Fd, path: Path, data: seq<Byte>)
    | Read(fd: Fd, path: Path)
    | ReadN(n: int)
    | Remove(fd: Fd, path: Path)
    | Disconnect(fd: Fd)

  /** What is sent of a file: never its stamps, openers or lock. */
  datatype Payload = Payload(path: Path, contents: seq<Byte>, size: nat)

  datatype Reply = Reply(code: int, sent: seq<Payload>, expelled: seq<File>)

  /** One served request: `created` and `used` are the clock readings it took. */
  datatype Event = Event(req: Request, created: Time, used: Time, reply: Reply)

  const INITIAL := State(map[], Counters(0, 0, 0, 0, 0))

  function PayloadOf(f: File): Payload {
    Payload(f.path, f.contents, f.size)
  }

  function Max(a: int, b: int): int {
    if a < b then b else a
  }

  // ---------------------------------------------------------------- eviction

  function Stamp(policy: Policy, f: File): Time {
    match policy
    case LRU => f.lastUse
    case FIFO => f.created
  }

  /** `policy(a, b) < 0` in `expell_single_file`. */
  predicate Older(policy: Policy, a: File, b: File) {
    Earlier(Stamp(policy, a), Stamp(policy, b))
  }

  function PathsOf(vs: seq<File>): set<Path> {
    if vs == [] then {} else PathsOf(vs[..|vs|-1]) + {vs[|vs|-1].path}
  }

  function Without(m: map<Path, File>, vs: seq<File>): map<Path, File> {
    m - PathsOf(vs)
  }

  function Bytes(vs: seq<File>): int {
    if vs == [] then 0 else Bytes(vs[..|vs|-1]) + vs[|vs|-1].size
  }

  /** `v` may leave next: expellable, and no expellable file is older. */
  ghost predicate Victim(policy: Policy, m: map<Path, File>, v: File) {
    && v.path in m
    && m[v.path] == v
    && v.canBeExpelled
    && forall p | p in m && m[p].canBeExpelled :: !Older(policy, m[p], v)
  }

  /** The files of `vs` leave `m` one after the other, each a rightful victim. */
  ghost predicate Evictions(policy: Policy, m: map<Path, File>, vs: seq<File>)
    decreases |vs|
  {
    vs == [] || (
      var sooner := vs[..|vs|-1];
      && Evictions(policy, m, sooner)
      && Victim(policy, Without(m, sooner), vs[|vs|-1]))
  }

  /** Evictions that stop as soon as `need` bytes are free. */
  ghost predicate ExpelsUntil(policy: Policy, m: map<Path, File>, need: int, vs: seq<File>) {
    && Evictions(policy, m, vs)
    && Bytes(vs) >= need
    && (vs != [] ==> Bytes(vs[..|vs|-1]) < need)
  }

  function OneExpelled(c: Counters, v: File): Counters {
    c.(files := c.files - 1, space := c.space - v.size, noLru := c.noLru + 1)
  }

  function AfterExpelling(c: Counters, vs: seq<File>): Counters {
    c.(files := c.files - |vs|, space := c.space - Bytes(vs), noLru := c.noLru + |vs|)
  }

  // ---------------------------------------------------------------- handlers

  predicate Fails(s: State, e: Event, s': State, code: int) {
    s' == s && e.reply == Reply(code, [], [])
  }

  predicate Answers(e: Event, code: int) {
    e.reply == Reply(code, [], [])
  }

  function NewFile(path: Path, fd: Fd, lock: bool, created: Time, used: Time): File {
    File(path, [], 0, if lock then fd else NO_FD, {fd}, created, used, false)
  }

  function OpenedBy(f: File, fd: Fd, lock: bool, used: Time): File {
    f.(fdLock := if lock then fd else f.fdLock, fdOpen := f.fdOpen + {fd}, lastUse := used)
  }

  /** What `close_file` and `close_client` do to one file. */
  function ClosedBy(f: File, fd: Fd): File {
    f.(fdLock := if f.fdLock == fd then NO_FD else f.fdLock, fdOpen := f.fdOpen - {fd})
  }

  function Extended(f: File, data: seq<Byte>, used: Time): File {
    f.(contents := f.contents + data, size := f.size + |data|, lastUse := used)
  }

  function Counted(c: Counters): Counters {
    c.(files := c.files + 1, maxFiles := Max(c.maxFiles, c.files + 1))
  }

  /** Creation evicts exactly when the count limit is met and a file is stored. */
  predicate MustMakeRoom(cfg: Config, s: State) {
    s.counters.files == cfg.maxFiles && |s.files| != 0
  }

  ghost predicate CreateNext(cfg: Config, s: State, e: Event, s': State)
    requires e.req.Open?
  {
    var vs := e.reply.expelled;
    if e.req.path in s.files then Fails(s, e, s', SA_EXISTS)
    else
      && e.reply.code == SA_SUCCESS
      && e.reply.sent == []
      && |vs| == (if MustMakeRoom(cfg, s) then 1 else 0)
      && Evictions(cfg.policy, s.files, vs)
      && s'.counters == Counted(AfterExpelling(s.counters, vs))
      && s'.files == Without(s.files, vs)[e.req.path :=
           NewFile(e.req.path, e.req.fd, e.req.lock, e.created, e.used).(canBeExpelled := true)]
  }

  predicate OpenNext(s: State, e: Event, s': State)
    requires e.req.Open?
  {
    var Open(fd, path, _, lock) := e.req;
    if path !in s.files then Fails(s, e, s', SA_NO_FILE)
    else if lock && s.files[path].fdLock != NO_FD && s.files[path].fdLock != fd then
      Fails(s, e, s', SA_ALREADY_LOCKED)
    else
      && Answers(e, SA_SUCCESS)
      && s' == s.(files := s.files[path := OpenedBy(s.files[path], fd, lock, e.used)])
  }

  predicate CloseNext(s: State, e: Event, s': State)
    requires e.req.Close?
  {
    var Close(fd, path) := e.req;
    if path !in s.files then Fails(s, e, s', SA_NO_FILE)
    else
      && Answers(e, SA_SUCCESS)
      && s' == s.(files := s.files[path := ClosedBy(s.files[path], fd)])
  }

  /** The state once `grown` is installed and counted, before any eviction. */
  function Grown(s: State, grown: File, added: nat): State {
    State(s.files[grown.path := grown], s.counters.(space := s.counters.space + added))
  }

  /** The files as the eviction scan sees them: the growing file is shielded. */
  function Shielded(s: State, grown: File): map<Path, File> {
    s.files[grown.path := grown.(canBeExpelled := false)]
  }

  function NoteSpace(c: Counters): Counters {
    c.(maxSpace := Max(c.maxSpace, c.space))
  }

  /** Accepted write or append: install, count, evict others down to the limit. */
  ghost predicate GrowNext(cfg: Config, s: State, e: Event, grown: File, added: nat, s': State) {
    var vs := e.reply.expelled;
    var big := Grown(s, grown, added);
    var need := big.counters.space - cfg.maxSpace;
    && e.reply.code == SA_SUCCESS
    && e.reply.sent == []
    && (if need > 0 then ExpelsUntil(cfg.policy, Shielded(s, grown), need, vs) else vs == [])
    && s'.files == Without(big.files, vs)
    && s'.counters == NoteSpace(AfterExpelling(big.counters, vs))
  }

  /** What the handlers make of `readn`'s result for a complete body of `size` bytes. */
  function BodyCheck(size: nat): int {
    if Int(size) == 0 then SA_CLOSE else if Int(size) == -1 then SA_ERROR else SA_SUCCESS
  }

  /** The code of the first check of `write_file` that refuses, or success. */
  function WriteCheck(cfg: Config, s: State, fd: Fd, path: Path, data: seq<Byte>): int {
    if BodyCheck(|data|) != SA_SUCCESS then BodyCheck(|data|)
    else if path !in s.files then SA_NO_FILE
    else if fd !in s.files[path].fdOpen then SA_NO_OPEN
    else if s.files[path].fdLock != fd then SA_NOT_LOCKED
    else if s.files[path].size != 0 then SA_NOT_EMPTY
    else if |data| > cfg.maxSpace then SA_TOO_BIG
    else SA_SUCCESS
  }

  /** The same for an append that has something to append. */
  function AppendCheck(cfg: Config, s: State, fd: Fd, path: Path, data: seq<Byte>): int {
    if BodyCheck(|data|) != SA_SUCCESS then BodyCheck(|data|)
    else if path !in s.files then SA_NO_FILE
    else if fd !in s.files[path].fdOpen then SA_NO_OPEN
    else if s.files[path].size + |data| > cfg.maxSpace then SA_TOO_BIG
    else SA_SUCCESS
  }

  /** `write_file` replaces the contents; it only gets there when there are none. */
  function Written(f: File, data: seq<Byte>, used: Time): File {
    f.(contents := data, size := |data|, lastUse := used)
  }

  ghost predicate WriteNext(cfg: Config, s: State, e: Event, s': State)
    requires e.req.Write?
  {
    var Write(fd, path, data) := e.req;
    var code := WriteCheck(cfg, s, fd, path, data);
    if code != SA_SUCCESS then Fails(s, e, s', code)
    else GrowNext(cfg, s, e, Written(s.files[path], data, e.used), |data|, s')
  }

  ghost predicate AppendNext(cfg: Config, s: State, e: Event, s': State)
    requires e.req.Append?
  {
    var Append(fd, path, data) := e.req;
    if data == [] then Fails(s, e, s', SA_SUCCESS)
    else
      var code := AppendCheck(cfg, s, fd, path, data);
      if code != SA_SUCCESS then Fails(s, e, s', code)
      else GrowNext(cfg, s, e, Extended(s.files[path], data, e.used), |data|, s')
  }

  predicate ReadNext(s: State, e: Event, s': State)
    requires e.req.Read?
  {
    var Read(fd, path) := e.req;
    if path !in s.files then Fails(s, e, s', SA_NO_FILE)
    else if fd !in s.files[path].fdOpen then Fails(s, e, s', SA_NO_OPEN)
    else
      && e.reply == Reply(SA_SUCCESS, [PayloadOf(s.files[path])], [])
      && s' == s.(files := s.files[path := s.files[path].(lastUse := e.used)])
  }

  /** `sent` shows stored files, each at most once. */
  ghost predicate DistinctSnapshot(m: map<Path, File>, sent: seq<Payload>) {
    && (forall i | 0 <= i < |sent| :: sent[i].path in m && sent[i] == PayloadOf(m[sent[i].path]))
    && (forall i, j | 0 <= i < j < |sent| :: sent[i].path != sent[j].path)
  }

  ghost predicate ReadNNext(s: State, e: Event, s': State)
    requires e.req.ReadN?
  {
    && s' == s
    && e.reply.code == SA_SUCCESS
    && e.reply.expelled == []
    && |e.reply.sent| == HowMany(e.req.n, |s.files|)
    && DistinctSnapshot(s.files, e.reply.sent)
  }

  function Dropped(s: State, path: Path): State
    requires path in s.files
  {
    State(s.files - {path},
          s.counters.(files := s.counters.files - 1, space := s.counters.space - s.files[path].size))
  }

  predicate RemoveNext(s: State, e: Event, s': State)
    requires e.req.Remove?
  {
    var Remove(fd, path) := e.req;
    if path !in s.files then Fails(s, e, s', SA_SUCCESS)
    else if fd !in s.files[path].fdOpen then Fails(s, e, s', SA_NO_OPEN)
    else if s.files[path].fdLock != fd then Fails(s, e, s', SA_NOT_LOCKED)
    else Answers(e, SA_SUCCESS) && s' == Dropped(s, path)
  }

  function AllClosedBy(m: map<Path, File>, fd: Fd): map<Path, File> {
    map p | p in m :: ClosedBy(m[p], fd)
  }

  predicate DisconnectNext(s: State, e: Event, s': State)
    requires e.req.Disconnect?
  {
    && Answers(e, SA_SUCCESS)
    && s' == s.(files := AllClosedBy(s.files, e.req.fd))
  }

  /** Serving `e.req` in `s`, with the reply and readings of `e`, leads to `s'`. */
  ghost predicate Next(cfg: Config, s: State, e: Event, s': State) {
    match e.req
    case Open(_, _, create, _) => if create then CreateNext(cfg, s, e, s') else OpenNext(s, e, s')
    case Close(_, _) => CloseNext(s, e, s')
    case Write(_, _, _) => WriteNext(cfg, s, e, s')
    case Append(_, _, _) => AppendNext(cfg, s, e, s')
    case Read(_, _) => ReadNext(s, e, s')
    case ReadN(_) => ReadNNext(s, e, s')
    case Remove(_, _) => RemoveNext(s, e, s')
    case Disconnect(_) => DisconnectNext(s, e, s')
  }

  // --------------------------------------------------------------- invariant

  ghost function TotalSize(m: map<Path, File>): int {
    if m == map[] then 0
    else
      var p :| p in m;
      m[p].size + TotalSize(m - {p})
  }

  /** What every stored file satisfies whenever `files_mtx` is free. */
  predicate FileOk(p: Path, f: File) {
    && f.path == p
    && f.size == |f.contents|
    && f.canBeExpelled
    && (f.fdLock == NO_FD || f.fdLock in f.fdOpen)
    && NO_FD !in f.fdOpen
  }

  ghost predicate AllOk(m: map<Path, File>) {
    forall p | p in m :: FileOk(p, m[p])
  }

  ghost predicate Inv(cfg: Config, s: State) {
    && AllOk(s.files)
    && s.counters.files == |s.files|
    && s.counters.space == TotalSize(s.files)
    && s.counters.space <= cfg.maxSpace
  }
}
