/**
  The global `files` table: the hash map with paths for keys and file objects for
  data, used as the handlers use it, is the map from paths to objects that
  Protocol takes it for, and a fresh iterator over it visits the stored objects
  in some order, each once.
 */
module FileTable {
  import opened Basics
  import opened Chains
  import opened StoreSpec
  import opened Protocol
  import opened ProtocolInv
  import I = HashIter
  import M = HashMap

  type Files = M.HashMap<Path, Fid>

  function Objects(es: seq<Entry<Path, Fid>>): (fs: seq<Fid>)
    ensures |fs| == |es| && forall i | 0 <= i < |es| :: fs[i] == es[i].data
  {
    seq(|es|, i requires 0 <= i < |es| => es[i].data)
  }

  /** The order of the iterator is an order of the stored objects. */
  lemma WalkIsOrder(h: Files, d: Data, alive: set<Fid>)
    requires h.Valid() && h.Is(d.table) && TableOk(d, alive)
    ensures IsOrder(d, Objects(Flat(h.table.chains)))
    ensures |Objects(Flat(h.table.chains))| == h.table.nelem
  {
    var es := Flat(h.table.chains);
    var order := Objects(es);
    h.FlatIs(d.table);
    forall f ensures f in order <==> f in d.table.Values {
      if f in order {
        var i :| 0 <= i < |order| && order[i] == f;
        assert es[i] in es;
      }
      if f in d.table.Values {
        var p :| p in d.table && d.table[p] == f;
        var i :| 0 <= i < |es| && es[i] == Entry(p, f);
        assert order[i] == f;
      }
    }
    forall i, j | 0 <= i < j < |order| ensures order[i] != order[j] {
      h.VisitedOnce(i, j);
      assert es[i] in es && es[j] in es;
    }
  }

  /** One pass of a fresh iterator. */
  method Walk(h: Files, ghost d: Data, ghost alive: set<Fid>) returns (order: seq<Fid>)
    requires h.Valid() && h.Is(d.table) && TableOk(d, alive)
    ensures IsOrder(d, order)
  {
    var es := I.VisitAll(h.table);
    WalkIsOrder(h, d, alive);
    order := Objects(es);
  }

  /** `hashmap_get_by_key` on `files`. */
  method Lookup(h: Files, p: Path, ghost d: Data) returns (f: Option<Fid>)
    requires h.Valid() && h.Is(d.table)
    ensures f == if p in d.table then Some(d.table[p]) else None
  {
    f := h.GetByKey(p);
  }

  /** `hashmap_insert` on `files`; the handlers insert a path only when it is absent. */
  method Enter(h: Files, p: Path, f: Fid, ghost d: Data)
    requires h.Valid() && h.Is(d.table) && p !in d.table
    modifies h`table, h.Repr()
    ensures h.Valid() && h.Is(d.table[p := f])
  {
    h.Insert(p, f);
  }

  /** `hashmap_remove` on `files`. */
  method TakeOut(h: Files, p: Path, ghost d: Data) returns (code: int, f: Option<Fid>)
    requires h.Valid() && h.Is(d.table)
    modifies h.Repr()
    ensures h.Valid() && h.Is(d.table - {p})
    ensures if p in d.table then code == 0 && f == Some(d.table[p]) else code == 1 && f == None
  {
    assert h.Of(p) == if p in d.table then [d.table[p]] else [];
    code, f := h.Remove(p);
  }
}
