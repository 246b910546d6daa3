/**
 The two tables from provider and context ID: to the entries advertised under
 it and to the metadata last advertised with it (pkg/store/batch.go).
 */
module Mappings {
  import opened Errors
  import opened Ipld
  import opened Wrappers

  datatype Key = Key(provider: Peer, contextID: ContextID)

  // What a store maps a key to; a missing field is a missing mapping.
  datatype Record = Record(chunk: Option<Link>, meta: Option<Metadata>)

  const UNMAPPED := Record(None, None)

  datatype Tables = Tables(chunks: map<Key, Link>, metas: map<Key, Metadata>)

  function Get<V>(m: map<Key, V>, k: Key): Option<V> {
    if k in m then Some(m[k]) else None
  }

  function SetRow<V>(m: map<Key, V>, k: Key, v: Option<V>): map<Key, V> {
    if v.Some? then m[k := v.value] else m - {k}
  }

  function Lookup(t: Tables, k: Key): Record {
    Record(Get(t.chunks, k), Get(t.metas, k))
  }

  function Update(t: Tables, k: Key, r: Record): Tables {
    Tables(SetRow(t.chunks, k, r.chunk), SetRow(t.metas, k, r.meta))
  }

  /** The tables are what they map: two tables with the same records are the
      same tables. */
  lemma TablesExtensional(t: Tables, u: Tables)
    requires forall k :: Lookup(t, k) == Lookup(u, k)
    ensures t == u
  {
    forall k ensures Get(t.chunks, k) == Get(u.chunks, k) && Get(t.metas, k) == Get(u.metas, k) {
      assert Lookup(t, k) == Lookup(u, k);
    }
    assert forall k :: k in t.chunks <==> Get(t.chunks, k).Some?;
    assert forall k :: k in u.chunks <==> Get(u.chunks, k).Some?;
    assert forall k :: k in t.metas <==> Get(t.metas, k).Some?;
    assert forall k :: k in u.metas <==> Get(u.metas, k).Some?;
    assert t.chunks == u.chunks;
    assert t.metas == u.metas;
  }

  lemma UpdateLookup(t: Tables, k: Key, r: Record)
    ensures forall k' :: Lookup(Update(t, k, r), k') == if k' == k then r else Lookup(t, k')
  {
  }

  lemma UpdateSame(t: Tables, k: Key)
    ensures Update(t, k, Lookup(t, k)) == t
  {
    UpdateLookup(t, k, Lookup(t, k));
    TablesExtensional(Update(t, k, Lookup(t, k)), t);
  }

  lemma UpdateTwice(t: Tables, k: Key, r: Record, r': Record)
    ensures Update(Update(t, k, r), k, r') == Update(t, k, r')
  {
    UpdateLookup(t, k, r);
    UpdateLookup(Update(t, k, r), k, r');
    UpdateLookup(t, k, r');
    TablesExtensional(Update(Update(t, k, r), k, r'), Update(t, k, r'));
  }

  /** No key but k changed. */
  ghost predicate OnlyKey(t: Tables, t': Tables, k: Key) {
    forall k' :: k' != k ==> Lookup(t', k') == Lookup(t, k')
  }

  /** Some of the rows of k were given the values r has, the rest were left:
      all that is known of writes of which some failed, since a failing write
      may or may not have taken effect on its own row. */
  ghost predicate RowsWithin(t: Tables, t': Tables, k: Key, r: Record) {
    && OnlyKey(t, t', k)
    && (Lookup(t', k).chunk == Lookup(t, k).chunk || Lookup(t', k).chunk == r.chunk)
    && (Lookup(t', k).meta == Lookup(t, k).meta || Lookup(t', k).meta == r.meta)
  }

  /** Rows put back, or not, over rows written, or not, are still old or new. */
  lemma RowsWithinBack(t0: Tables, t1: Tables, t2: Tables, k: Key, r: Record)
    requires RowsWithin(t0, t1, k, r) && RowsWithin(t1, t2, k, Lookup(t0, k))
    ensures RowsWithin(t0, t2, k, r)
  {
  }

  lemma OnlyKeyIsUpdate(t: Tables, t': Tables, k: Key)
    requires OnlyKey(t, t', k)
    ensures t' == Update(t, k, Lookup(t', k))
  {
    UpdateLookup(t, k, Lookup(t', k));
    TablesExtensional(t', Update(t, k, Lookup(t', k)));
  }
}
