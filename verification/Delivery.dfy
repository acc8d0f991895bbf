/** From the store to the client: what arrives over the wire is one state of the store. */
module Delivery {
  import opened Ints
  import opened StoreSpec
  import opened Eviction
  import opened StoreRuns
  import opened Protocol
  import opened ProtocolInv
  import opened ProtocolLocks
  import opened ProtocolRuns
  import opened ProtocolSafety
  import W = Wire

  /** What `send_list_of_files` reads from the objects of a list, as they are in `files`. */
  function Stream(files: map<Fid, File>, fs: seq<Fid>): (ws: seq<W.WireFile>)
    requires forall f | f in fs :: f in files
  {
    seq(|fs|, i requires 0 <= i < |fs| => W.WireFile(files[fs[i]].path, files[fs[i]].contents))
  }

  /** Each of `ws` is a stored file with all of its bytes, and none comes twice. */
  ghost predicate AllStored(m: map<Path, File>, ws: seq<W.WireFile>) {
    && (forall i | 0 <= i < |ws| :: ws[i].path in m && ws[i].contents == m[ws[i].path].contents)
    && (forall i, j | 0 <= i < j < |ws| :: ws[i].path != ws[j].path)
  }

  /** No stored file is bigger than the byte limit. */
  lemma StoredFits(cfg: Config, s: State, p: Path)
    requires Inv(cfg, s) && p in s.files
    ensures |s.files[p].contents| <= cfg.maxSpace
  {
    assert FileOk(p, s.files[p]);
    TotalSizeSplit(s.files, p);
    TotalSizeNonNegative(s.files - {p});
  }

  lemma {:induction false} LengthsFit(ws: seq<W.WireFile>, maxSpace: nat)
    requires maxSpace < W.Pow256(8)
    requires forall i | 0 <= i < |ws| :: |ws[i].path| < TWO_31 - 1 && |ws[i].contents| <= maxSpace
    ensures W.AllLengthsOk(ws)
  {
    if ws != [] {
      assert forall i | 0 <= i < |ws| - 1 :: ws[1..][i] == ws[i+1];
      LengthsFit(ws[1..], maxSpace);
    }
  }

  /**
    Stored files sent one after the other are decoded as they are, whatever follows
    them, if and only if none has an empty path or a size that `readn` misreports;
    provided the byte limit and the path lengths fit the fields of the format.
   */
  lemma StoredRoundTrip(cfg: Config, s: State, ws: seq<W.WireFile>, rest: seq<Byte>)
    requires Inv(cfg, s) && AllStored(s.files, ws) && cfg.maxSpace < W.Pow256(8)
    requires forall p | p in s.files :: |p| < TWO_31 - 1
    ensures W.Parse(W.Encode(ws) + rest) == W.Files(ws, rest) <==>
            forall i | 0 <= i < |ws| :: ws[i].path != [] && SizeArrives(|ws[i].contents|)
  {
    forall i | 0 <= i < |ws| ensures |ws[i].path| < TWO_31 - 1 && |ws[i].contents| <= cfg.maxSpace {
      StoredFits(cfg, s, ws[i].path);
    }
    LengthsFit(ws, cfg.maxSpace);
    W.RoundTrip(ws, rest);
    ArriveEach(ws);
  }

  /** Empty, or of a size whose low 32 bits are neither 0 nor -1. */
  predicate SizeArrives(size: nat) {
    size == 0 || (size % 0x1_0000_0000 != 0 && size % 0x1_0000_0000 != 0xFFFF_FFFF)
  }

  lemma {:induction false} ArriveEach(ws: seq<W.WireFile>)
    ensures W.AllArrive(ws) <==> forall i | 0 <= i < |ws| :: ws[i].path != [] && SizeArrives(|ws[i].contents|)
  {
    if ws != [] {
      ArriveEach(ws[1..]);
      assert ws == [ws[0]] + ws[1..];
    }
  }

  // --------------------------------------------------------------------- read-many

  lemma ListsStored(cfg: Config, tr: Trace)
    requires Lawful(cfg, tr) && tr.Then? && tr.event.req.ReadN?
    ensures Inv(cfg, tr.state) && DistinctSnapshot(tr.state.files, tr.event.reply.sent)
  {
    RunKeepsInv(cfg, tr);
  }

  /**
    Read-many, end to end: let the bytes be produced from the file objects as they
    are at any moment `r` of the sending, and be followed by anything. The files
    sent are the right number of distinct ones, with all the bytes that they had in
    the one state of the store in which the handler released `files_mtx`, at `r0`;
    and the client decodes exactly them if and only if none of them has an empty
    path or a size that `readn` misreports.
   */
  lemma ClientGetsSnapshot(cfg: Config, r: Run, t: Tid, rest: seq<Byte>) returns (r0: Run)
    requires Happens(cfg, r) && Th(End(r).threads, t).ctl.Send? && Th(End(r).threads, t).ctl.e.req.ReadN?
    requires cfg.maxSpace < W.Pow256(8)
    ensures Extends(r, r0) && r0.Moved? && r0.who == t && Releasing(Th(End(r0.before).threads, t))
    ensures var Send(e, send, _) := Th(End(r).threads, t).ctl;
            var s := Abs(End(r0.before).d);
            && |send| == (if 0 < e.req.n <= |s.files| then e.req.n else |s.files|)
            && (forall f | f in send :: f in End(r).d.files && f in End(r).locks)
            && var ws := Stream(End(r).d.files, send);
               && |ws| == |send|
               && (forall i | 0 <= i < |ws| :: ws[i].path in s.files && ws[i].contents == s.files[ws[i].path].contents)
               && (forall i, j | 0 <= i < j < |ws| :: ws[i].path != ws[j].path)
               && ((forall p | p in s.files :: |p| < TWO_31 - 1) ==>
                   (W.Parse(W.Encode(ws) + rest) == W.Files(ws, rest) <==>
                    forall i | 0 <= i < |ws| :: ws[i].path != [] && SizeArrives(|ws[i].contents|)))
  {
    r0 := AtomicSnapshot(cfg, r, t);
    ListedAtRelease(cfg, r0);
    StreamIsStored(cfg, r, t, r0);
    var s, ws := Abs(End(r0.before).d), Stream(End(r).d.files, Th(End(r).threads, t).ctl.send);
    if forall p | p in s.files :: |p| < TWO_31 - 1 {
      StoredRoundTrip(cfg, s, ws, rest);
    }
  }

  /** The store in which a read-many releases `files_mtx`, and what its reply lists of it. */
  lemma ListedAtRelease(cfg: Config, r0: Run)
    requires Happens(cfg, r0) && r0.Moved? && Releasing(Th(End(r0.before).threads, r0.who))
    requires Th(End(r0.before).threads, r0.who).ctl.e.req.ReadN?
    ensures Inv(cfg, Abs(End(r0.before).d))
    ensures var sent := Th(End(r0.before).threads, r0.who).ctl.e.reply.sent;
            forall i, j | 0 <= i < j < |sent| :: sent[i].path != sent[j].path
  {
    ReleaseIsLawful(cfg, r0);
    StepIsRelease(cfg, r0);
    ListsStored(cfg, End(r0).trace);
  }

  lemma StreamIsStored(cfg: Config, r: Run, t: Tid, r0: Run)
    requires Th(End(r).threads, t).ctl.Send? && r0.Moved?
    requires var Send(e, send, _) := Th(End(r).threads, t).ctl;
             var s := Abs(End(r0.before).d);
             && |send| == |e.reply.sent|
             && (forall i, j | 0 <= i < j < |send| :: e.reply.sent[i].path != e.reply.sent[j].path)
             && forall i | 0 <= i < |send| ::
                  && send[i] in End(r).d.files && e.reply.sent[i].path in s.files
                  && var f := s.files[e.reply.sent[i].path];
                     && f.path == End(r).d.files[send[i]].path == e.reply.sent[i].path
                     && f.contents == End(r).d.files[send[i]].contents
    ensures var send := Th(End(r).threads, t).ctl.send;
            (forall f | f in send :: f in End(r).d.files)
            && AllStored(Abs(End(r0.before).d).files, Stream(End(r).d.files, send))
  {
  }

  /** The step that releases `files_mtx` puts the store as it is into the history. */
  lemma StepIsRelease(cfg: Config, r0: Run)
    requires Happens(cfg, r0) && r0.Moved? && Releasing(Th(End(r0.before).threads, r0.who))
    ensures End(r0).trace ==
            Then(End(r0.before).trace, Th(End(r0.before).threads, r0.who).ctl.e, Abs(End(r0.before).d))
  {
    StepShape(cfg, End(r0.before), r0.who, r0.choice, r0.g);
  }

  // ------------------------------------------------------------------ a single file

  lemma ReadsRequested(cfg: Config, tr: Trace)
    requires Lawful(cfg, tr) && tr.Then? && tr.event.req.Read? && tr.event.reply.sent != []
    ensures Inv(cfg, tr.state) && tr.event.req.path in tr.state.files
    ensures |tr.event.reply.sent| == 1 && tr.event.reply.sent[0].path == tr.event.req.path
  {
    RunKeepsInv(cfg, tr);
    RunKeepsInv(cfg, tr.before);
    var s, p := Last(tr.before), tr.event.req.path;
    if p in s.files {
      assert FileOk(p, s.files[p]);
    }
  }

  lemma ReadAtRelease(cfg: Config, r0: Run)
    requires Happens(cfg, r0) && r0.Moved? && Releasing(Th(End(r0.before).threads, r0.who))
    requires var e := Th(End(r0.before).threads, r0.who).ctl.e; e.req.Read? && e.reply.sent != []
    ensures var e := Th(End(r0.before).threads, r0.who).ctl.e;
            var s := Abs(End(r0.before).d);
            && Inv(cfg, s) && e.req.path in s.files
            && |e.reply.sent| == 1 && e.reply.sent[0].path == e.req.path
  {
    ReleaseIsLawful(cfg, r0);
    StepIsRelease(cfg, r0);
    ReadsRequested(cfg, End(r0).trace);
  }

  /**
    A read, end to end: at any moment of the sending the object holds all the bytes
    that the requested file had in the store when the handler released `files_mtx`,
    and the client gets exactly them if and only if `readn` can report their
    number, which for an empty file it cannot.
   */
  lemma ClientGetsFile(cfg: Config, r: Run, t: Tid, code: int, rest: seq<Byte>) returns (r0: Run)
    requires Happens(cfg, r) && Th(End(r).threads, t).ctl.Send?
    requires Th(End(r).threads, t).ctl.e.req.Read? && Th(End(r).threads, t).ctl.send != []
    requires cfg.maxSpace < W.Pow256(8) && -TWO_31 <= code < TWO_31
    ensures Extends(r, r0) && r0.Moved? && r0.who == t && Releasing(Th(End(r0.before).threads, t))
    ensures var Send(e, send, _) := Th(End(r).threads, t).ctl;
            var s := Abs(End(r0.before).d);
            && e.req.path in s.files && |send| == 1 && send[0] in End(r).d.files && send[0] in End(r).locks
            && var contents := End(r).d.files[send[0]].contents;
               && contents == s.files[e.req.path].contents
               && W.ParseRead(W.EncodeRead(contents, code) + rest) ==
                  if contents != [] && SizeArrives(|contents|) then W.Got(contents, code, rest) else W.Broken
  {
    r0 := AtomicSnapshot(cfg, r, t);
    ReadAtRelease(cfg, r0);
    var e := Th(End(r).threads, t).ctl.e;
    StoredFits(cfg, Abs(End(r0.before).d), e.req.path);
    W.ReadRoundTrip(Abs(End(r0.before).d).files[e.req.path].contents, code, rest);
  }

  // ------------------------------------------------------------- the expelled files

  /** The expelled files are distinct stored ones, as they were. */
  ghost predicate WereStored(m: map<Path, File>, vs: seq<File>) {
    && (forall i | 0 <= i < |vs| :: vs[i].path in m && m[vs[i].path] == vs[i])
    && (forall i, j | 0 <= i < j < |vs| :: vs[i].path != vs[j].path)
  }

  lemma VictimsWereStored(cfg: Config, s: State, e: Event, grown: File, added: nat, s': State)
    requires Inv(cfg, s) && grown.path in s.files && GrowNext(cfg, s, e, grown, added, s')
    ensures WereStored(s.files, e.reply.expelled)
  {
    var vs := e.reply.expelled;
    if vs != [] {
      EvictionIsExact(cfg.policy, Shielded(s, grown), vs);
    }
  }

  /** What a write or append of a lawful history expels are distinct files of the state it found, as they were. */
  lemma ExpelsStored(cfg: Config, tr: Trace)
    requires Lawful(cfg, tr) && tr.Then? && (tr.event.req.Write? || tr.event.req.Append?)
    ensures Inv(cfg, Last(tr.before)) && WereStored(Last(tr.before).files, tr.event.reply.expelled)
  {
    var s, e := Last(tr.before), tr.event;
    RunKeepsInv(cfg, tr.before);
    if e.reply.expelled != [] {
      var f := s.files[e.req.path];
      assert FileOk(e.req.path, f);
      var grown := if e.req.Write? then Written(f, e.req.data, e.used) else Extended(f, e.req.data, e.used);
      VictimsWereStored(cfg, s, e, grown, |e.req.data|, tr.state);
    }
  }

  lemma VictimStream(cfg: Config, s: State, files: map<Fid, File>, doomed: seq<Fid>, vs: seq<File>)
    requires Inv(cfg, s) && WereStored(s.files, vs) && |doomed| == |vs|
    requires forall i | 0 <= i < |doomed| :: doomed[i] in files && files[doomed[i]] == vs[i]
    ensures forall f | f in doomed :: f in files
    ensures var ws := Stream(files, doomed);
            && AllStored(s.files, ws)
            && forall i | 0 <= i < |ws| :: ws[i].path == vs[i].path && ws[i].contents == vs[i].contents
  {
    forall i | 0 <= i < |vs| ensures vs[i].path in s.files && s.files[vs[i].path] == vs[i] {
      assert FileOk(vs[i].path, s.files[vs[i].path]);
    }
  }

  /** Until they are freed, the expelled objects are exactly what the reply lists. */
  lemma VictimsMatch(cfg: Config, r: Run, t: Tid)
    requires Happens(cfg, r) && Th(End(r).threads, t).ctl.Send?
    ensures var Send(e, _, doomed) := Th(End(r).threads, t).ctl;
            && |doomed| == |e.reply.expelled|
            && forall i | 0 <= i < |doomed| ::
                 && doomed[i] in End(r).d.files && doomed[i] in End(r).locks
                 && End(r).d.files[doomed[i]] == e.reply.expelled[i]
  {
    RunKeepsGInv(cfg, r);
    AtThread(End(r), t);
    var Send(e, send, doomed) := Th(End(r).threads, t).ctl;
    assert Shows(End(r).d.files, e, send, doomed);
    forall i | 0 <= i < |doomed| ensures doomed[i] in End(r).locks {
      assert doomed[i] in Elems(doomed);
    }
  }

  /**
    Replacement, end to end: the files that a write or append expelled are
    distinct, and at any moment `r` of the sending their objects are alive and
    contain all the bytes that they had in the store that the handler found; the
    client decodes exactly them if and only if none has an empty path or a size
    that `readn` misreports.
   */
  lemma ClientGetsVictims(cfg: Config, r: Run, t: Tid, rest: seq<Byte>) returns (r0: Run)
    requires Happens(cfg, r) && Th(End(r).threads, t).ctl.Send?
    requires var req := Th(End(r).threads, t).ctl.e.req; req.Write? || req.Append?
    requires cfg.maxSpace < W.Pow256(8)
    ensures Extends(r, r0) && r0.Moved? && r0.who == t && Releasing(Th(End(r0.before).threads, t))
    ensures var Send(e, _, doomed) := Th(End(r).threads, t).ctl;
            var s := Last(End(r0.before).trace);
            && |doomed| == |e.reply.expelled|
            && (forall f | f in doomed :: f in End(r).d.files && f in End(r).locks)
            && var ws := Stream(End(r).d.files, doomed);
               && |ws| == |doomed|
               && (forall i | 0 <= i < |ws| ::
                     && ws[i].path == e.reply.expelled[i].path && ws[i].contents == e.reply.expelled[i].contents
                     && ws[i].path in s.files && ws[i].contents == s.files[ws[i].path].contents)
               && (forall i, j | 0 <= i < j < |ws| :: ws[i].path != ws[j].path)
               && ((forall p | p in s.files :: |p| < TWO_31 - 1) ==>
                   (W.Parse(W.Encode(ws) + rest) == W.Files(ws, rest) <==>
                    forall i | 0 <= i < |ws| :: ws[i].path != [] && SizeArrives(|ws[i].contents|)))
  {
    r0 := SendingSince(cfg, r, t);
    ReleaseIsLawful(cfg, r0);
    ExpelsStored(cfg, End(r0).trace);
    VictimsMatch(cfg, r, t);
    var Send(e, _, doomed) := Th(End(r).threads, t).ctl;
    var s := Last(End(r0.before).trace);
    VictimStream(cfg, s, End(r).d.files, doomed, e.reply.expelled);
    var ws := Stream(End(r).d.files, doomed);
    if forall p | p in s.files :: |p| < TWO_31 - 1 {
      StoredRoundTrip(cfg, s, ws, rest);
    }
  }
}
