/**
  How a list of files travels: the sender of src/server/send_files_to_client.c,
  the receive loop of src/api/write_files_into_dir.c, and the `readn`/`writen`
  loops of src/util/util.c over transfers that may be split or interrupted
  anywhere.
 */
module Wire {
  import opened Basics
  import opened Ints
  import opened StoreSpec

  // ------------------------------------------------------------------- numbers

  function Pow256(k: nat): nat {
    if k == 0 then 1 else 256 * Pow256(k - 1)
  }

  /** The `k` bytes of `n`, least significant first. */
  function Bytes(n: nat, k: nat): (b: seq<Byte>)
    ensures |b| == k
  {
    if k == 0 then [] else [n % 256] + Bytes(n / 256, k - 1)
  }

  function Number(b: seq<Byte>): nat {
    if b == [] then 0 else b[0] + 256 * Number(b[1..])
  }

  lemma {:induction false} NumberOfBytes(n: nat, k: nat)
    requires n < Pow256(k)
    ensures Number(Bytes(n, k)) == n
  {
    if k > 0 {
      assert n / 256 < Pow256(k - 1);
      NumberOfBytes(n / 256, k - 1);
      assert Bytes(n, k)[1..] == Bytes(n / 256, k - 1);
    }
  }

  /** A 32-bit `int` as stored. */
  function Stored(i: int): nat {
    i % TWO_32
  }

  function IntBytes(i: int): (b: seq<Byte>)
    ensures |b| == 4
  {
    Bytes(Stored(i), 4)
  }

  lemma IntAgain(i: int)
    requires -TWO_31 <= i < TWO_31
    ensures Int(Number(IntBytes(i))) == i
  {
    assert Pow256(4) == TWO_32;
    NumberOfBytes(Stored(i), 4);
  }

  // ------------------------------------------------------- the format as a value

  /** What is sent of a file; the path without its terminating NUL. */
  datatype WireFile = WireFile(path: Path, contents: seq<Byte>)

  function Terminated(path: Path): (b: seq<Byte>)
    ensures |b| == |path| + 1
  {
    var bytes: seq<Byte> := path;
    bytes + [0]
  }

  /** `send_single_file` with its path. */
  function EncodeFile(f: WireFile): seq<Byte> {
    IntBytes(|f.path|) + Terminated(f.path) + Bytes(|f.contents|, 8) + f.contents
  }

  /** `send_list_of_files`: the files, then a zero length. */
  function Encode(files: seq<WireFile>): seq<Byte> {
    if files == [] then IntBytes(0) else EncodeFile(files[0]) + Encode(files[1..])
  }

  /** A C string: what comes before the first NUL. */
  function CString(b: seq<Byte>): Path {
    if b == [] || b[0] == 0 then [] else [b[0]] + CString(b[1..])
  }

  datatype Parsed = Files(files: seq<WireFile>, rest: seq<Byte>) | Bad

  /** One file after its path length `n`. */
  function ParseFile(n: nat, b: seq<Byte>): (p: Option<(WireFile, seq<Byte>)>)
    ensures p.Some? ==> |p.value.1| < |b|
  {
    if !Readable(n + 1) || |b| < n + 1 + 8 then None
    else
      var path, size, b2 := CString(b[..n+1]), Number(b[n+1..n+9]), b[n+9..];
      if size == 0 then Some((WireFile(path, []), b2))
      else if !Readable(size) || |b2| < size then None
      else Some((WireFile(path, b2[..size]), b2[size..]))
  }

  /** The receive loop. A negative length makes the client give up. */
  function Parse(b: seq<Byte>): Parsed
    decreases |b|
  {
    if |b| < 4 then Bad
    else
      var n := Int(Number(b[..4]));
      if n == 0 then Files([], b[4..])
      else if n < 0 then Bad
      else
        match ParseFile(n, b[4..])
        case None => Bad
        case Some((f, rest)) =>
          match Parse(rest)
          case Bad => Bad
          case Files(fs, end) => Files([f] + fs, end)
  }

  /** Lengths fit the types that carry them: the server reads path lengths as `int`. */
  predicate LengthsOk(f: WireFile) {
    |f.path| < TWO_31 - 1 && |f.contents| < Pow256(8)
  }

  /** The path is not mistaken for the end of the list, nor the size for a failure. */
  predicate Arrives(f: WireFile) {
    f.path != [] && (f.contents == [] || Readable(|f.contents|))
  }

  lemma {:induction false} CStringOf(path: Path)
    ensures CString(Terminated(path)) == path
  {
    if path != [] {
      assert Terminated(path)[1..] == Terminated(path[1..]);
      CStringOf(path[1..]);
    }
  }

  lemma Slices(a: seq<Byte>, s: seq<Byte>, c: seq<Byte>, rest: seq<Byte>)
    requires |s| == 8
    ensures var tail := a + s + c + rest;
            tail[..|a|] == a && tail[|a|..|a|+8] == s && tail[|a|+8..] == c + rest
    ensures (c + rest)[..|c|] == c && (c + rest)[|c|..] == rest
  {
  }

  lemma AfterLength(f: WireFile, rest: seq<Byte>)
    requires LengthsOk(f) && f.path != []
    ensures ParseFile(|f.path|, Terminated(f.path) + Bytes(|f.contents|, 8) + f.contents + rest) ==
            if Arrives(f) then Some((f, rest)) else None
  {
    var n, size := |f.path|, |f.contents|;
    Slices(Terminated(f.path), Bytes(size, 8), f.contents, rest);
    CStringOf(f.path);
    NumberOfBytes(size, 8);
    assert Readable(n + 1);
    if size == 0 {
      assert f.contents + rest == rest;
    }
  }

  lemma FileRoundTrip(f: WireFile, rest: seq<Byte>)
    requires LengthsOk(f)
    ensures var b := EncodeFile(f) + rest;
            && |b| >= 4 && Int(Number(b[..4])) == |f.path|
            && b[4..] == Terminated(f.path) + Bytes(|f.contents|, 8) + f.contents + rest
            && (f.path != [] ==> ParseFile(|f.path|, b[4..]) == if Arrives(f) then Some((f, rest)) else None)
  {
    StartsWithLength(f, rest);
    IntAgain(|f.path|);
    if f.path != [] {
      AfterLength(f, rest);
    }
  }

  lemma StartsWithLength(f: WireFile, rest: seq<Byte>)
    ensures var b := EncodeFile(f) + rest;
            && |b| >= 4 && b[..4] == IntBytes(|f.path|)
            && b[4..] == Terminated(f.path) + Bytes(|f.contents|, 8) + f.contents + rest
  {
  }

  predicate AllArrive(files: seq<WireFile>) {
    files == [] || (Arrives(files[0]) && AllArrive(files[1..]))
  }

  predicate AllLengthsOk(files: seq<WireFile>) {
    files == [] || (LengthsOk(files[0]) && AllLengthsOk(files[1..]))
  }

  /** Reading one more file in front of a list. */
  lemma ParseOneMore(f: WireFile, more: seq<Byte>)
    requires LengthsOk(f) && f.path != []
    ensures Parse(EncodeFile(f) + more) ==
            if Arrives(f) && Parse(more).Files? then Files([f] + Parse(more).files, Parse(more).rest) else Bad
  {
    FileRoundTrip(f, more);
  }

  /**
    A stored file with an empty path, which `open_file` accepts, ends the list for
    the client: the rest of the file is left for it to read as the result code.
   */
  lemma EmptyPathEndsList(f: WireFile, more: seq<Byte>)
    requires LengthsOk(f) && f.path == []
    ensures var p := Parse(EncodeFile(f) + more);
            p == Files([], [0] + Bytes(|f.contents|, 8) + f.contents + more) && |p.rest| >= |more| + 9
  {
    FileRoundTrip(f, more);
    assert Terminated([]) == [0];
  }

  /** A file of 2^32 bytes is received whole and then taken for a closed connection. */
  lemma FourGigabytesAreLost(f: WireFile, more: seq<Byte>)
    requires f.path != [] && |f.path| < TWO_31 - 1 && |f.contents| == TWO_32
    ensures Parse(EncodeFile(f) + more) == Bad
  {
    assert Pow256(8) == 256 * (256 * (256 * (256 * Pow256(4)))) && Pow256(4) == TWO_32;
    ParseOneMore(f, more);
  }

  lemma ParseEnd(rest: seq<Byte>)
    ensures Parse(IntBytes(0) + rest) == Files([], rest)
  {
    var b := IntBytes(0) + rest;
    assert b[..4] == IntBytes(0) && b[4..] == rest;
    IntAgain(0);
  }

  /** What reading a list back gives, one file at a time. */
  lemma EncodeOneMore(files: seq<WireFile>, rest: seq<Byte>)
    requires files != []
    ensures Encode(files) + rest == EncodeFile(files[0]) + (Encode(files[1..]) + rest)
    ensures files == [files[0]] + files[1..]
  {
    Joined(EncodeFile(files[0]), Encode(files[1..]), rest);
  }

  /**
    The round trip: whatever follows it in the stream, an encoded list is read
    back exactly, and nothing past its terminator is consumed, if and only if no
    path is empty and the size of every file that has contents survives `readn`'s
    result type.
   */
  lemma {:induction false} RoundTrip(files: seq<WireFile>, rest: seq<Byte>)
    requires AllLengthsOk(files)
    ensures Parse(Encode(files) + rest) == Files(files, rest) <==> AllArrive(files)
    ensures Parse(Encode(files) + rest).Files? && !AllArrive(files) ==> Parse(Encode(files) + rest).files != files
  {
    if files == [] {
      ParseEnd(rest);
    } else {
      var more := Encode(files[1..]) + rest;
      EncodeOneMore(files, rest);
      RoundTrip(files[1..], rest);
      if files[0].path == [] {
        EmptyPathEndsList(files[0], more);
      } else {
        ParseOneMore(files[0], more);
      }
    }
  }

  /** The final result code comes right after the list. */
  lemma ReplyRoundTrip(files: seq<WireFile>, code: int, rest: seq<Byte>)
    requires AllLengthsOk(files) && AllArrive(files) && -TWO_31 <= code < TWO_31
    ensures var tail := IntBytes(code) + rest;
            && Parse(Encode(files) + tail) == Files(files, tail)
            && Int(Number(tail[..4])) == code && tail[4..] == rest
  {
    var tail := IntBytes(code) + rest;
    RoundTrip(files, tail);
    assert tail[..4] == IntBytes(code) && tail[4..] == rest;
    IntAgain(code);
  }

  // ---------------------------------------------------------- transfers in pieces

  /** What one `read` or `write` call does: it is interrupted, fails, returns 0, or moves some bytes. */
  datatype Turn = Interrupted | Failed | Nothing | Give(k: nat)

  predicate NoFailure(script: seq<Turn>) {
    Failed !in script && Nothing !in script
  }

  function Min(a: nat, b: nat): nat {
    if a < b then a else b
  }

  /** How many bytes a call moves out of `most`: at least one if it can. */
  function Moves(script: seq<Turn>, most: nat): nat {
    if script == [] || !script[0].Give? then most else Min(most, script[0].k + 1)
  }

  /** A call may move any number of bytes: every way of splitting a transfer is some script. */
  lemma AnySplit(script: seq<Turn>, most: nat, n: nat)
    requires 0 < n <= most
    ensures Moves([Give(n - 1)] + script, most) == n
  {
  }

  /** The reading end of a connection whose peer has sent `bytes` and closed. */
  class Source {
    var bytes: seq<Byte>
    var script: seq<Turn>

    constructor (bytes: seq<Byte>, script: seq<Turn>)
      ensures this.bytes == bytes && this.script == script
    {
      this.bytes, this.script := bytes, script;
    }

    /** `read`: -1 with or without EINTR, 0 at the end, or the number of bytes read. */
    method Read(left: nat) returns (r: int, eintr: bool, got: seq<Byte>)
      requires left > 0
      modifies this
      ensures old(bytes) == got + bytes && |got| <= left
      ensures script == if old(script) == [] then [] else old(script)[1..]
      ensures r == -1 ==> got == [] && old(script) != [] && old(script)[0] == if eintr then Interrupted else Failed
      ensures r != -1 ==> r == |got|
      ensures r == 0 ==> bytes == [] || (old(script) != [] && old(script)[0] == Nothing)
    {
      eintr, got := false, [];
      if script != [] && (script[0].Interrupted? || script[0].Failed?) {
        eintr := script[0].Interrupted?;
        r := -1;
      } else {
        r := if script != [] && script[0].Nothing? then 0 else Moves(script, Min(left, |bytes|));
        got, bytes := bytes[..r], bytes[r..];
      }
      script := if script == [] then [] else script[1..];
    }
  }

  /** The writing end of a connection. */
  class Sink {
    var out: seq<Byte>
    var script: seq<Turn>

    constructor (script: seq<Turn>)
      ensures out == [] && this.script == script
    {
      this.out, this.script := [], script;
    }

    /** `write`: -1 with or without EINTR, or the number of bytes written. */
    method Write(buf: seq<Byte>) returns (r: int, eintr: bool)
      requires buf != []
      modifies this
      ensures script == if old(script) == [] then [] else old(script)[1..]
      ensures r == -1 ==>
                out == old(out) && old(script) != [] && old(script)[0] == if eintr then Interrupted else Failed
      ensures r != -1 ==> 0 <= r <= |buf| && out == old(out) + buf[..r]
      ensures r == -1 <==> old(script) != [] && (old(script)[0].Interrupted? || old(script)[0].Failed?)
      ensures r != -1 ==>
                r == if old(script) != [] && old(script)[0].Nothing? then 0 else Moves(old(script), |buf|)
    {
      eintr := false;
      if script != [] && (script[0].Interrupted? || script[0].Failed?) {
        eintr := script[0].Interrupted?;
        r := -1;
      } else {
        r := if script != [] && script[0].Nothing? then 0 else Moves(script, |buf|);
        out := out + buf[..r];
      }
      script := if script == [] then [] else script[1..];
    }
  }

  /**
    `readn`: the bytes, in however many pieces. The result is 0 at the end of the
    stream, -1 on failure and otherwise `size` as an `int`.
   */
  method ReadN(src: Source, size: nat) returns (code: int, buf: seq<Byte>)
    modifies src
    ensures old(src.bytes) == buf + src.bytes && |buf| <= size
    ensures code != 0 && code != -1 ==> |buf| == size
    ensures |buf| == size ==> code == Int(size)
    ensures NoFailure(old(src.script)) ==> NoFailure(src.script)
    ensures NoFailure(old(src.script)) && |buf| < size ==> code == 0 && src.bytes == []
  {
    var left := size;
    buf := [];
    while left > 0
      invariant 0 <= left && |buf| + left == size && old(src.bytes) == buf + src.bytes
      invariant NoFailure(old(src.script)) ==> NoFailure(src.script)
      decreases |src.script|, left
    {
      var r, eintr, got := src.Read(left);
      if r == -1 {
        if !eintr {
          return -1, buf;
        }
      } else {
        if r == 0 {
          return 0, buf;
        }
        left := left - r;
        Joined(buf, got, src.bytes);
        buf := buf + got;
      }
    }
    code := Int(size);
  }

  // --------------------------------------------------------- writing as a function

  /** What writing comes to: the code, the bytes that got out and the turns left. */
  datatype Sent = Sent(code: int, bytes: seq<Byte>, script: seq<Turn>)

  function Before(b: seq<Byte>, s: Sent): Sent {
    s.(bytes := b + s.bytes)
  }

  /** `writen` against a script: 1 when everything is written, -1 on failure, 0 when a `write` returned 0. */
  function Writes(script: seq<Turn>, buf: seq<Byte>): Sent
    decreases |script|, |buf|
  {
    if buf == [] then Sent(1, [], script)
    else if script == [] then Sent(1, buf, [])
    else
      match script[0]
      case Interrupted => Writes(script[1..], buf)
      case Failed => Sent(-1, [], script[1..])
      case Nothing => Sent(0, [], script[1..])
      case Give(_) =>
        var n := Moves(script, |buf|);
        Before(buf[..n], Writes(script[1..], buf[n..]))
  }

  /** Several buffers in a row; the senders stop at a -1 and take a 0 for success. */
  function WritesAll(script: seq<Turn>, pieces: seq<seq<Byte>>): Sent
    decreases |pieces|, 0
  {
    if pieces == [] then Sent(1, [], script) else AndThen(Writes(script, pieces[0]), pieces[1..])
  }

  function AndThen(s: Sent, pieces: seq<seq<Byte>>): Sent
    decreases |pieces|, 1
  {
    if s.code == -1 then s else Before(s.bytes, WritesAll(s.script, pieces))
  }

  function Concat(pieces: seq<seq<Byte>>): seq<Byte> {
    if pieces == [] then [] else pieces[0] + Concat(pieces[1..])
  }

  /** The turns taken between two stages of a script. */
  function Used(script: seq<Turn>, rest: seq<Turn>): seq<Turn> {
    if |rest| <= |script| then script[..|script|-|rest|] else []
  }

  predicate Continues(script: seq<Turn>, rest: seq<Turn>) {
    |rest| <= |script| && script == Used(script, rest) + rest
  }

  /** What a result says about the turns it took: -1 for a failure, whole for neither failure nor 0. */
  predicate Accounts(script: seq<Turn>, s: Sent, buf: seq<Byte>) {
    && Continues(script, s.script)
    && |s.bytes| <= |buf|
    && (s.bytes == buf <==> NoFailure(Used(script, s.script)))
    && (|s.bytes| == |buf| ==> s.bytes == buf)
    && (s.code == -1 <==> Failed in Used(script, s.script))
  }

  lemma UsedMore(script: seq<Turn>, mid: seq<Turn>, rest: seq<Turn>)
    requires Continues(script, mid) && Continues(mid, rest)
    ensures Continues(script, rest) && Used(script, rest) == Used(script, mid) + Used(mid, rest)
  {
  }

  lemma UsedOne(script: seq<Turn>)
    requires script != []
    ensures Continues(script, script[1..]) && Used(script, script[1..]) == [script[0]]
  {
  }

  /** A turn that moves `n` bytes, in front of the others. */
  lemma AccountsMore(script: seq<Turn>, s: Sent, buf: seq<Byte>, n: nat)
    requires script != [] && script[0].Give? && n <= |buf|
    requires Accounts(script[1..], s, buf[n..]) && s.bytes <= buf[n..]
    ensures Accounts(script, Before(buf[..n], s), buf) && buf[..n] + s.bytes <= buf
    ensures Nothing in Used(script, s.script) <==> Nothing in Used(script[1..], s.script)
  {
    UsedOne(script);
    UsedMore(script, script[1..], s.script);
    Split(buf[..n], s.bytes, buf[..n], buf[n..]);
    assert buf == buf[..n] + buf[n..];
  }

  lemma AccountsSame(script: seq<Turn>, s: Sent, buf: seq<Byte>)
    requires script != [] && script[0].Interrupted? && Accounts(script[1..], s, buf)
    ensures Accounts(script, s, buf)
    ensures Nothing in Used(script, s.script) <==> Nothing in Used(script[1..], s.script)
  {
    UsedOne(script);
    UsedMore(script, script[1..], s.script);
  }

  /** Everything gets out if and only if no `write` failed or returned 0; a failure and nothing else gives -1. */
  lemma {:induction false} WritesIff(script: seq<Turn>, buf: seq<Byte>)
    ensures var s := Writes(script, buf);
            && Accounts(script, s, buf) && s.bytes <= buf && s.code in {1, 0, -1}
            && (s.code == 1 <==> s.bytes == buf)
            && (s.code == 0 <==> Nothing in Used(script, s.script))
    decreases |script|, |buf|
  {
    if buf != [] && script != [] {
      UsedOne(script);
      if script[0].Interrupted? {
        WritesIff(script[1..], buf);
        AccountsSame(script, Writes(script[1..], buf), buf);
      } else if script[0].Give? {
        var n := Moves(script, |buf|);
        WritesIff(script[1..], buf[n..]);
        AccountsMore(script, Writes(script[1..], buf[n..]), buf, n);
      }
    }
  }

  /** So it is with several buffers: all of them get out if and only if no `write` failed or returned 0. */
  lemma {:induction false} WritesAllIff(script: seq<Turn>, pieces: seq<seq<Byte>>)
    ensures Accounts(script, WritesAll(script, pieces), Concat(pieces))
    decreases |pieces|
  {
    if pieces != [] {
      var s, r := Writes(script, pieces[0]), WritesAll(script, pieces);
      WritesIff(script, pieces[0]);
      if s.code != -1 {
        WritesAllIff(s.script, pieces[1..]);
        UsedMore(script, s.script, r.script);
        Split(s.bytes, WritesAll(s.script, pieces[1..]).bytes, pieces[0], Concat(pieces[1..]));
      }
    }
  }

  lemma Split(a: seq<Byte>, b: seq<Byte>, c: seq<Byte>, d: seq<Byte>)
    requires |a| <= |c| && |b| <= |d|
    ensures a + b == c + d <==> a == c && b == d
    ensures |a + b| == |c + d| ==> |a| == |c| && |b| == |d|
  {
    if a + b == c + d {
      assert (a + b)[..|a|] == a && (c + d)[..|c|] == c;
      assert (a + b)[|a|..] == b && (c + d)[|c|..] == d;
    }
  }

  lemma {:induction false} WritesConcat(script: seq<Turn>, a: seq<seq<Byte>>, b: seq<seq<Byte>>)
    ensures WritesAll(script, a + b) == AndThen(WritesAll(script, a), b)
    decreases |a|
  {
    if a == [] {
      assert a + b == b;
    } else {
      var s := Writes(script, a[0]);
      assert (a + b)[1..] == a[1..] + b;
      if s.code != -1 {
        WritesConcat(s.script, a[1..], b);
        var r := WritesAll(s.script, a[1..]);
        if r.code != -1 {
          assert s.bytes + r.bytes + WritesAll(r.script, b).bytes == s.bytes + (r.bytes + WritesAll(r.script, b).bytes);
        }
      }
    }
  }

  lemma WritesOne(script: seq<Turn>, piece: seq<Byte>)
    ensures var w, s := WritesAll(script, [piece]), Writes(script, piece);
            w.bytes == s.bytes && w.script == s.script && (w.code == -1 <==> s.code == -1)
  {
    assert [piece][1..] == [];
  }

  /**
    `writen`: 1 when everything is written, -1 on failure, 0 when a `write`
    returned 0; in the last two cases a prefix is written, and not all.
   */
  method WriteN(sink: Sink, buf: seq<Byte>) returns (code: int)
    modifies sink
    ensures var s := Writes(old(sink.script), buf);
            code == s.code && sink.out == old(sink.out) + s.bytes && sink.script == s.script
    ensures code in {1, 0, -1} && old(sink.out) <= sink.out <= old(sink.out) + buf
    ensures code == 1 <==> sink.out == old(sink.out) + buf
    ensures code == 0 <==> Nothing in Used(old(sink.script), sink.script)
    ensures code == -1 <==> Failed in Used(old(sink.script), sink.script)
  {
    ghost var was, script := sink.out, sink.script;
    var done := 0;
    while done < |buf|
      invariant 0 <= done <= |buf| && sink.out == was + buf[..done]
      invariant Writes(script, buf) == Before(buf[..done], Writes(sink.script, buf[done..]))
      decreases |sink.script|, |buf| - done
    {
      ghost var turns := sink.script;
      var r, eintr := sink.Write(buf[done..]);
      if r == -1 {
        if !eintr {
          WritesIff(script, buf);
          return -1;
        }
      } else if r == 0 {
        WritesIff(script, buf);
        return 0;
      } else {
        Advance(turns, buf, done, r);
        done := done + r;
      }
    }
    WritesIff(script, buf);
    code := 1;
  }

  /** A `write` that moves `r` bytes. */
  lemma Advance(script: seq<Turn>, buf: seq<Byte>, done: nat, r: nat)
    requires done < |buf| && r == Moves(script, |buf| - done) && (script != [] ==> script[0].Give?)
    ensures done + r <= |buf| && buf[..done] + buf[done..][..r] == buf[..done+r]
    ensures var rest := if script == [] then [] else script[1..];
            Before(buf[..done], Writes(script, buf[done..])) == Before(buf[..done+r], Writes(rest, buf[done+r..]))
  {
    assert buf[done..][r..] == buf[done+r..];
    if script != [] {
      Joined(buf[..done], buf[done..][..r], Writes(script[1..], buf[done+r..]).bytes);
    }
  }

  // -------------------------------------------------------------- sender, receiver

  /** What `send_single_file` writes, buffer by buffer: the path only if asked to. */
  function PiecesOf(f: WireFile, sendPath: bool): seq<seq<Byte>> {
    (if sendPath then [IntBytes(|f.path|), Terminated(f.path)] else []) + [Bytes(|f.contents|, 8), f.contents]
  }

  function EncodeOne(f: WireFile, sendPath: bool): seq<Byte> {
    (if sendPath then IntBytes(|f.path|) + Terminated(f.path) else []) + (Bytes(|f.contents|, 8) + f.contents)
  }

  lemma ConcatTwo(a: seq<Byte>, b: seq<Byte>)
    ensures Concat([a, b]) == a + b
  {
    assert [a, b][1..] == [b] && [b][1..] == [];
    assert Concat([b]) == b + Concat([]) == b;
  }

  lemma PiecesAre(f: WireFile, sendPath: bool)
    ensures Concat(PiecesOf(f, sendPath)) == EncodeOne(f, sendPath)
  {
    ConcatTwo(Bytes(|f.contents|, 8), f.contents);
    ConcatTwo(IntBytes(|f.path|), Terminated(f.path));
    var first := if sendPath then [IntBytes(|f.path|), Terminated(f.path)] else [];
    ConcatAppend(first, [Bytes(|f.contents|, 8), f.contents]);
  }

  lemma {:induction false} ConcatAppend(a: seq<seq<Byte>>, b: seq<seq<Byte>>)
    ensures Concat(a + b) == Concat(a) + Concat(b)
    decreases |a|
  {
    if a == [] {
      assert a + b == b;
    } else {
      assert (a + b)[1..] == a[1..] + b;
      ConcatAppend(a[1..], b);
      Joined(a[0], Concat(a[1..]), Concat(b));
    }
  }

  /** Where a sender stands after some of its buffers: what got out, and that none of them failed. */
  ghost predicate Stands(was: seq<Byte>, script: seq<Turn>, pieces: seq<seq<Byte>>, out: seq<Byte>, rest: seq<Turn>) {
    var s := WritesAll(script, pieces);
    out == was + s.bytes && rest == s.script && s.code != -1
  }

  /** One more buffer after those already written; a failure there is the last thing that happens. */
  lemma StandsNext(was: seq<Byte>, script: seq<Turn>, sent: seq<seq<Byte>>, out: seq<Byte>, rest: seq<Turn>,
                   piece: seq<Byte>, pieces: seq<seq<Byte>>)
    requires Stands(was, script, sent, out, rest) && sent + [piece] <= pieces
    ensures var s := Writes(rest, piece);
            if s.code == -1 then
              var all := WritesAll(script, pieces);
              all.code == -1 && was + all.bytes == out + s.bytes && all.script == s.script
            else Stands(was, script, sent + [piece], out + s.bytes, s.script)
  {
    var s := Writes(rest, piece);
    WritesConcat(script, sent, [piece]);
    WritesOne(rest, piece);
    Joined(was, WritesAll(script, sent).bytes, s.bytes);
    StopsEarly(script, sent + [piece], pieces);
  }

  /** After a failure nothing more is written. */
  lemma StopsEarly(script: seq<Turn>, sent: seq<seq<Byte>>, pieces: seq<seq<Byte>>)
    requires sent <= pieces
    ensures WritesAll(script, sent).code == -1 ==> WritesAll(script, pieces) == WritesAll(script, sent)
  {
    assert pieces == sent + pieces[|sent|..];
    WritesConcat(script, sent, pieces[|sent|..]);
  }

  /**
    `send_single_file`: 0 or -1. It stops at a -1 of `writen` and takes a 0 for
    success, so all of it is sent if and only if no `write` failed or returned 0.
   */
  method SendSingleFile(sink: Sink, f: WireFile, sendPath: bool) returns (code: int)
    modifies sink
    ensures var s := WritesAll(old(sink.script), PiecesOf(f, sendPath));
            && code == (if s.code == -1 then -1 else 0)
            && sink.out == old(sink.out) + s.bytes && sink.script == s.script
    ensures sink.out == old(sink.out) + EncodeOne(f, sendPath) <==> NoFailure(Used(old(sink.script), sink.script))
    ensures code == -1 <==> Failed in Used(old(sink.script), sink.script)
  {
    ghost var was, script := sink.out, sink.script;
    ghost var pieces := PiecesOf(f, sendPath);
    WritesAllIff(script, pieces);
    PiecesAre(f, sendPath);
    var c, size := 1, Bytes(|f.contents|, 8);
    ghost var sent := [];
    if sendPath {
      StandsNext(was, script, [], was, script, IntBytes(|f.path|), pieces);
      c := WriteN(sink, IntBytes(|f.path|));
      if c == -1 {
        return -1;
      }
      sent := [] + [IntBytes(|f.path|)];
      StandsNext(was, script, sent, sink.out, sink.script, Terminated(f.path), pieces);
      c := WriteN(sink, Terminated(f.path));
      if c == -1 {
        return -1;
      }
      sent := sent + [Terminated(f.path)];
    }
    assert sent + [size] + [f.contents] == pieces;
    StandsNext(was, script, sent, sink.out, sink.script, size, pieces);
    c := WriteN(sink, size);
    if c == -1 {
      return -1;
    }
    sent := sent + [size];
    StandsNext(was, script, sent, sink.out, sink.script, f.contents, pieces);
    if |f.contents| != 0 {
      c := WriteN(sink, f.contents);
      if c == -1 {
        return -1;
      }
    }
    code := 0;
  }

  lemma Joined(a: seq<Byte>, b: seq<Byte>, c: seq<Byte>)
    ensures a + b + c == a + (b + c)
    ensures b == [] ==> a + b == a
    ensures c == [] ==> a + b + c == a + b
  {
  }

  lemma OneWithPath(f: WireFile)
    ensures EncodeOne(f, true) == EncodeFile(f)
  {
  }

  /** What `send_list_of_files` writes of the files before the terminator, buffer by buffer. */
  function PiecesOfAll(files: seq<WireFile>): seq<seq<Byte>> {
    if files == [] then [] else PiecesOfAll(files[..|files|-1]) + PiecesOf(files[|files|-1], true)
  }

  function PiecesOfList(files: seq<WireFile>): seq<seq<Byte>> {
    PiecesOfAll(files) + [IntBytes(0)]
  }

  /** Encoding one more file at the end, before the terminator. */
  function EncodeAll(files: seq<WireFile>): seq<Byte> {
    if files == [] then [] else EncodeAll(files[..|files|-1]) + EncodeFile(files[|files|-1])
  }

  lemma {:induction false} EncodeInOrder(a: seq<WireFile>, b: seq<WireFile>)
    ensures Encode(a + b) == EncodeAll(a) + Encode(b)
    decreases |a|
  {
    if a == [] {
      assert a + b == b;
    } else {
      var n := |a| - 1;
      assert a + b == a[..n] + ([a[n]] + b);
      EncodeInOrder(a[..n], [a[n]] + b);
      assert ([a[n]] + b)[1..] == b;
      Joined(EncodeAll(a[..n]), EncodeFile(a[n]), Encode(b));
    }
  }

  lemma {:induction false} PiecesOfAllAre(files: seq<WireFile>)
    ensures Concat(PiecesOfAll(files)) == EncodeAll(files)
    decreases |files|
  {
    if files != [] {
      var n := |files| - 1;
      PiecesOfAllAre(files[..n]);
      ConcatAppend(PiecesOfAll(files[..n]), PiecesOf(files[n], true));
      PiecesAre(files[n], true);
      OneWithPath(files[n]);
    }
  }

  lemma PiecesOfListAre(files: seq<WireFile>)
    ensures Concat(PiecesOfList(files)) == Encode(files)
  {
    assert files + [] == files;
    EncodeInOrder(files, []);
    PiecesOfAllAre(files);
    ConcatAppend(PiecesOfAll(files), [IntBytes(0)]);
    assert Concat([IntBytes(0)]) == IntBytes(0);
  }

  lemma {:induction false} PiecesOfPrefix(files: seq<WireFile>, i: nat)
    requires i <= |files|
    ensures PiecesOfAll(files[..i]) <= PiecesOfAll(files)
    decreases |files|
  {
    if i < |files| {
      PiecesOfPrefix(files[..|files|-1], i);
      assert files[..|files|-1][..i] == files[..i];
    } else {
      assert files[..i] == files;
    }
  }

  /** One more file after those already sent. */
  lemma FileNext(was: seq<Byte>, script: seq<Turn>, files: seq<WireFile>, i: nat, out: seq<Byte>, rest: seq<Turn>)
    requires i < |files| && Stands(was, script, PiecesOfAll(files[..i]), out, rest)
    ensures var s := WritesAll(rest, PiecesOf(files[i], true));
            if s.code == -1 then
              var all := WritesAll(script, PiecesOfList(files));
              all.code == -1 && was + all.bytes == out + s.bytes && all.script == s.script
            else Stands(was, script, PiecesOfAll(files[..i+1]), out + s.bytes, s.script)
  {
    assert files[..i+1][..i] == files[..i];
    WritesConcat(script, PiecesOfAll(files[..i]), PiecesOf(files[i], true));
    Joined(was, WritesAll(script, PiecesOfAll(files[..i])).bytes, WritesAll(rest, PiecesOf(files[i], true)).bytes);
    PiecesOfPrefix(files, i + 1);
    StopsEarly(script, PiecesOfAll(files[..i+1]), PiecesOfList(files));
  }

  /**
    `send_list_of_files` over a list whose nodes carry `files`: the whole list and
    its terminator are sent if and only if no `write` failed or returned 0.
   */
  method SendListOfFiles(sink: Sink, files: seq<WireFile>) returns (code: int)
    modifies sink
    ensures var s := WritesAll(old(sink.script), PiecesOfList(files));
            && code == (if s.code == -1 then -1 else 0)
            && sink.out == old(sink.out) + s.bytes && sink.script == s.script
    ensures sink.out == old(sink.out) + Encode(files) <==> NoFailure(Used(old(sink.script), sink.script))
    ensures code == -1 <==> Failed in Used(old(sink.script), sink.script)
  {
    ghost var was, script, pieces := sink.out, sink.script, PiecesOfList(files);
    WritesAllIff(script, pieces);
    PiecesOfListAre(files);
    var i := 0;
    while i < |files|
      invariant i <= |files|
      invariant Stands(was, script, PiecesOfAll(files[..i]), sink.out, sink.script)
    {
      FileNext(was, script, files, i, sink.out, sink.script);
      var c := SendSingleFile(sink, files[i], true);
      if c == -1 {
        return -1;
      }
      i := i + 1;
    }
    assert files[..i] == files;
    StandsNext(was, script, PiecesOfAll(files), sink.out, sink.script, IntBytes(0), pieces);
    var c := WriteN(sink, IntBytes(0));
    code := if c == -1 then -1 else 0;
  }

  /** The rest of the list `q`, after `files` have been read. */
  function After(files: seq<WireFile>, q: Parsed): Parsed {
    match q
    case Bad => Bad
    case Files(fs, rest) => Files(files + fs, rest)
  }

  /** Reading one file after its path length. */
  method ReceiveFile(src: Source, n: nat) returns (f: Option<WireFile>)
    requires n > 0
    modifies src
    ensures f.Some? ==> ParseFile(n, old(src.bytes)) == Some((f.value, src.bytes))
    ensures NoFailure(old(src.script)) ==> NoFailure(src.script) && (f == None ==> ParseFile(n, old(src.bytes)) == None)
  {
    ghost var b := src.bytes;
    var l, path, size, contents;
    l, path := ReadN(src, n + 1);
    if l == -1 || l == 0 {
      return None;
    }
    assert b[..n+1] == path && b[n+1..] == src.bytes;
    l, size := ReadN(src, 8);
    if l == -1 || l == 0 {
      return None;
    }
    assert b[n+1..n+9] == size && b[n+9..] == src.bytes;
    contents := [];
    if Number(size) != 0 {
      l, contents := ReadN(src, Number(size));
      if l == -1 || l == 0 {
        return None;
      }
      assert b[n+9..][..Number(size)] == contents && b[n+9..][Number(size)..] == src.bytes;
    }
    f := Some(WireFile(CString(path), contents));
  }

  /**
    The receive loop of `write_files_sent_by_server`: it agrees with `Parse`, and
    leaves in the stream exactly what comes after the terminator.
   */
  method ReceiveFiles(src: Source) returns (files: Option<seq<WireFile>>)
    modifies src
    ensures files.Some? ==> Parse(old(src.bytes)) == Files(files.value, src.bytes)
    ensures NoFailure(old(src.script)) ==> NoFailure(src.script) && (files == None ==> Parse(old(src.bytes)) == Bad)
  {
    var got: seq<WireFile> := [];
    ghost var all := src.bytes;
    while true
      invariant Parse(all) == After(got, Parse(src.bytes))
      invariant NoFailure(old(src.script)) ==> NoFailure(src.script)
      decreases |src.bytes|
    {
      ghost var b := src.bytes;
      var l, len := ReadN(src, 4);
      if l == -1 || l == 0 {
        return None;
      }
      assert b[..4] == len && b[4..] == src.bytes;
      var n := Int(Number(len));
      if n == 0 {
        return Some(got);
      }
      if n < 0 {
        return None;
      }
      var f := ReceiveFile(src, n);
      if f == None {
        return None;
      }
      AfterOne(got, f.value, Parse(src.bytes));
      got := got + [f.value];
    }
  }

  lemma AfterOne(got: seq<WireFile>, f: WireFile, q: Parsed)
    ensures After(got, After([f], q)) == After(got + [f], q)
  {
    if q.Files? {
      assert got + ([f] + q.files) == got + [f] + q.files;
    }
  }

  /** An `int` read on its own, as the final result code is. */
  method ReceiveInt(src: Source) returns (i: Option<int>)
    modifies src
    ensures NoFailure(old(src.script)) && |old(src.bytes)| >= 4 ==>
              i == Some(Int(Number(old(src.bytes)[..4]))) && src.bytes == old(src.bytes)[4..]
  {
    ghost var b := src.bytes;
    var l, buf := ReadN(src, 4);
    if l == -1 || l == 0 {
      return None;
    }
    assert b == buf + src.bytes;
    i := Some(Int(Number(buf)));
  }

  /** The worker's answer to a request that sends files: the list, then the result code. */
  method SendReply(sink: Sink, files: seq<WireFile>, code: int) returns (ok: bool)
    modifies sink
    ensures Continues(old(sink.script), sink.script)
    ensures sink.out == old(sink.out) + (Encode(files) + IntBytes(code)) <==>
              NoFailure(Used(old(sink.script), sink.script))
    ensures ok <==> Failed !in Used(old(sink.script), sink.script)
  {
    ghost var was, script, all := sink.out, sink.script, Encode(files) + IntBytes(code);
    ghost var pieces := PiecesOfList(files);
    WritesAllIff(script, pieces);
    PiecesOfListAre(files);
    var c := SendListOfFiles(sink, files);
    ghost var s := WritesAll(script, pieces);
    Split(s.bytes, [], Encode(files), IntBytes(code));
    if c == -1 {
      assert s.bytes + [] == s.bytes;
      return false;
    }
    c := WriteN(sink, IntBytes(code));
    ghost var r := Writes(s.script, IntBytes(code));
    WritesIff(s.script, IntBytes(code));
    UsedMore(script, s.script, r.script);
    Joined(was, s.bytes, r.bytes);
    Split(s.bytes, r.bytes, Encode(files), IntBytes(code));
    ok := c != -1;
  }

  /** The client's side of it. */
  method ReceiveReply(src: Source) returns (files: Option<seq<WireFile>>, res: Option<int>)
    modifies src
    ensures NoFailure(old(src.script)) ==>
              match Parse(old(src.bytes))
              case Bad => files == None
              case Files(fs, rest) =>
                && files == Some(fs)
                && (|rest| >= 4 ==> res == Some(Int(Number(rest[..4]))) && src.bytes == rest[4..])
  {
    res := None;
    files := ReceiveFiles(src);
    if files.Some? {
      res := ReceiveInt(src);
    }
  }

  lemma ReplyEnds(files: seq<WireFile>, code: int)
    requires AllLengthsOk(files) && -TWO_31 <= code < TWO_31
    ensures var p := Parse(Encode(files) + IntBytes(code));
            && (p.Files? && p.files == files <==> AllArrive(files))
            && (AllArrive(files) ==> |p.rest| == 4 && Int(Number(p.rest[..4])) == code)
  {
    assert IntBytes(code) + [] == IntBytes(code);
    RoundTrip(files, IntBytes(code));
    if AllArrive(files) {
      ReplyRoundTrip(files, code, []);
    }
  }

  /**
    End to end: however the sender's writes and the client's reads are split or
    interrupted, the client ends up with exactly the files sent, in order, if and
    only if no path is empty and every size can be reported; and then it gets the
    result code that follows them.
   */
  method Exchange(files: seq<WireFile>, code: int, sending: seq<Turn>, receiving: seq<Turn>)
      returns (got: Option<seq<WireFile>>, res: Option<int>)
    requires AllLengthsOk(files)
    requires -TWO_31 <= code < TWO_31 && NoFailure(sending) && NoFailure(receiving)
    ensures got == Some(files) <==> AllArrive(files)
    ensures AllArrive(files) ==> res == Some(code)
  {
    var sink := new Sink(sending);
    var ok := SendReply(sink, files, code);
    ghost var b := Encode(files) + IntBytes(code);
    assert sink.out == [] + b == b;
    ReplyEnds(files, code);
    var src := new Source(sink.out, receiving);
    got, res := ReceiveReply(src);
  }

  // ------------------------------------------------------------------ a single file

  /** What `readFile` makes of the answer: the file and the final code, a refusal, or a broken connection. */
  datatype ReadAnswer =
    | Got(contents: seq<Byte>, code: int, rest: seq<Byte>)
    | RefusedBy(code: int, rest: seq<Byte>)
    | Broken

  /** The receiving half of `readFile`: a code, and after a success the size, the bytes and a code again. */
  function ParseRead(b: seq<Byte>): ReadAnswer {
    if |b| < 4 then Broken
    else if Int(Number(b[..4])) != 0 then RefusedBy(Int(Number(b[..4])), b[4..])
    else if |b| < 12 then Broken
    else
      var size := Number(b[4..12]);
      if !Readable(size) || |b| < 12 + size + 4 then Broken
      else Got(b[12..12+size], Int(Number(b[12+size..12+size+4])), b[12+size+4..])
  }

  /** What the worker sends in answer to a read that it accepts. */
  function EncodeRead(contents: seq<Byte>, code: int): seq<Byte> {
    IntBytes(0) + (Bytes(|contents|, 8) + contents) + IntBytes(code)
  }

  lemma ReadSlices(contents: seq<Byte>, code: int, rest: seq<Byte>)
    requires |contents| < Pow256(8)
    ensures var b, n := EncodeRead(contents, code) + rest, |contents|;
            && |b| == 12 + n + 4 + |rest| && b[..4] == IntBytes(0) && b[4..12] == Bytes(n, 8)
            && b[12..12+n] == contents && b[12+n..12+n+4] == IntBytes(code) && b[12+n+4..] == rest
  {
    var b, n := EncodeRead(contents, code) + rest, |contents|;
    assert b == IntBytes(0) + (Bytes(n, 8) + contents) + IntBytes(code) + rest;
    assert b[12+n..12+n+4] == IntBytes(code);
  }

  /**
    A single file is read back exactly, with the code that follows it, if and only
    if `readn` can report its size: unlike in a list, an empty file fails too.
   */
  lemma ReadRoundTrip(contents: seq<Byte>, code: int, rest: seq<Byte>)
    requires |contents| < Pow256(8) && -TWO_31 <= code < TWO_31
    ensures ParseRead(EncodeRead(contents, code) + rest) ==
            if |contents| % 0x1_0000_0000 == 0 || |contents| % 0x1_0000_0000 == 0xFFFF_FFFF then Broken
            else Got(contents, code, rest)
  {
    ReadSlices(contents, code, rest);
    IntAgain(0);
    IntAgain(code);
    NumberOfBytes(|contents|, 8);
  }

  /** A refusal is read as the code that it is. */
  lemma RefusalRoundTrip(code: int, rest: seq<Byte>)
    requires -TWO_31 <= code < TWO_31 && code != 0
    ensures ParseRead(IntBytes(code) + rest) == RefusedBy(code, rest)
  {
    var b := IntBytes(code) + rest;
    assert b[..4] == IntBytes(code) && b[4..] == rest;
    IntAgain(code);
  }

  /** The three parts of the answer, one after the other. */
  lemma ThreeSent(script: seq<Turn>, f: WireFile, code: int)
    ensures var w1 := Writes(script, IntBytes(0));
            var w2 := WritesAll(w1.script, PiecesOf(f, false));
            var w3 := Writes(w2.script, IntBytes(code));
            && Continues(script, w1.script) && Continues(script, w2.script) && Continues(script, w3.script)
            && (w1.code == -1 <==> Failed in Used(script, w1.script))
            && (w1.code == -1 || w2.code == -1 <==> Failed in Used(script, w2.script))
            && (w1.code == -1 || w2.code == -1 || w3.code == -1 <==> Failed in Used(script, w3.script))
            && (NoFailure(Used(script, w3.script)) ==>
                  w1.bytes == IntBytes(0) && w2.bytes == EncodeOne(f, false) && w3.bytes == IntBytes(code))
  {
    var w1 := Writes(script, IntBytes(0));
    var w2 := WritesAll(w1.script, PiecesOf(f, false));
    var w3 := Writes(w2.script, IntBytes(code));
    WritesIff(script, IntBytes(0));
    WritesAllIff(w1.script, PiecesOf(f, false));
    PiecesAre(f, false);
    WritesIff(w2.script, IntBytes(code));
    UsedMore(script, w1.script, w2.script);
    UsedMore(script, w2.script, w3.script);
  }

  /** `read_file` from its first code on, and the final code of its worker. */
  method SendRead(sink: Sink, f: WireFile, code: int) returns (ok: bool)
    modifies sink
    ensures Continues(old(sink.script), sink.script)
    ensures ok <==> Failed !in Used(old(sink.script), sink.script)
    ensures NoFailure(Used(old(sink.script), sink.script)) ==> sink.out == old(sink.out) + EncodeRead(f.contents, code)
  {
    ghost var was := sink.out;
    ThreeSent(sink.script, f, code);
    var c := WriteN(sink, IntBytes(0));
    if c == -1 {
      return false;
    }
    c := SendSingleFile(sink, f, false);
    if c == -1 {
      return false;
    }
    c := WriteN(sink, IntBytes(code));
    ok := c != -1;
    Joined(was, IntBytes(0), EncodeOne(f, false));
    Joined(was, IntBytes(0) + EncodeOne(f, false), IntBytes(code));
    ReadPieces(f, code);
  }

  lemma ReadPieces(f: WireFile, code: int)
    ensures IntBytes(0) + EncodeOne(f, false) + IntBytes(code) == EncodeRead(f.contents, code)
  {
    assert EncodeOne(f, false) == Bytes(|f.contents|, 8) + f.contents;
  }

  /** `readFile` from the first code on. */
  method ReceiveRead(src: Source) returns (got: Option<seq<Byte>>, res: Option<int>)
    modifies src
    ensures NoFailure(old(src.script)) ==>
              match ParseRead(old(src.bytes))
              case Got(contents, code, rest) => got == Some(contents) && res == Some(code) && src.bytes == rest
              case RefusedBy(code, rest) => got == None && res == Some(code) && src.bytes == rest
              case Broken => got == None || res == None
  {
    ghost var b := src.bytes;
    got, res := None, None;
    var l, buf := ReadN(src, 4);
    if l == -1 || l == 0 {
      return;
    }
    assert b[..4] == buf && b[4..] == src.bytes;
    if Int(Number(buf)) != 0 {
      res := Some(Int(Number(buf)));
      return;
    }
    l, buf := ReadN(src, 8);
    if l == -1 || l == 0 {
      return;
    }
    assert b[4..12] == buf && b[12..] == src.bytes;
    var size := Number(buf);
    l, buf := ReadN(src, size);
    if l == -1 || l == 0 {
      return;
    }
    assert b[12..12+size] == buf && b[12+size..] == src.bytes;
    got := Some(buf);
    l, buf := ReadN(src, 4);
    if l == -1 || l == 0 {
      return;
    }
    assert b[12+size..12+size+4] == buf && b[12+size+4..] == src.bytes;
    res := Some(Int(Number(buf)));
  }

  /** End to end: the client has the file and the code if and only if `readn` can report its size. */
  method ExchangeRead(f: WireFile, code: int, sending: seq<Turn>, receiving: seq<Turn>)
      returns (got: Option<seq<Byte>>, res: Option<int>)
    requires |f.contents| < Pow256(8) && -TWO_31 <= code < TWO_31 && NoFailure(sending) && NoFailure(receiving)
    ensures got == Some(f.contents) && res == Some(code) <==> Readable(|f.contents|)
  {
    var sink := new Sink(sending);
    var ok := SendRead(sink, f, code);
    ghost var b := EncodeRead(f.contents, code);
    assert sink.out == [] + b == b + [];
    ReadRoundTrip(f.contents, code, []);
    var src := new Source(sink.out, receiving);
    got, res := ReceiveRead(src);
  }
}
