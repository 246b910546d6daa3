/**
 The head as bytes in a datastore (pkg/store/store.go, dsStoreAdapter and
 ReplaceHead): that the byte comparison is the compare-and-swap on heads that
 the rest of the model assumes of a store.
 */
module DatastoreHeads {
  import opened AdStores
  import opened Errors
  import opened Faults
  import opened Ipld
  import opened Wrappers

  newtype byte = b: int | 0 <= b < 256

  type Bytes = seq<byte>

  const HEAD_KEY := "head"

  /** What Replace compares: a missing value and a missing expectation both
      count as no bytes, but an expectation fails when there is no value. */
  predicate Passes(cur: Option<Bytes>, expected: Option<Bytes>) {
    && (cur.None? ==> expected.None?)
    && (if cur.Some? then cur.value else []) == (if expected.Some? then expected.value else [])
  }

  /** The comparison is a compare-and-swap of optional values except in one
      case, which no head is: a stored empty value passes for a missing one. */
  lemma PassesIsEqualityIff(cur: Option<Bytes>, expected: Option<Bytes>)
    ensures (Passes(cur, expected) <==> cur == expected) <==> !(cur == Some([]) && expected.None?)
  {
  }

  type Codec = SignedHead -> Bytes

  /** Different heads have different encodings, and none is empty. */
  ghost predicate Faithful(enc: Codec) {
    && (forall h :: enc(h) != [])
    && forall h, h' :: enc(h) == enc(h') ==> h == h'
  }

  function Encoded(enc: Codec, head: Option<SignedHead>): Option<Bytes> {
    if head.Some? then Some(enc(head.value)) else None
  }

  lemma HeadsCompareAsBytes(enc: Codec, head: Option<SignedHead>, expected: Option<SignedHead>)
    requires Faithful(enc)
    ensures Passes(Encoded(enc, head), Encoded(enc, expected)) <==> head == expected
  {
    if head.Some? && expected.Some? && enc(head.value) == enc(expected.value) {
      assert head.value == expected.value;
    } else if head.Some? {
      assert enc(head.value) != [];
    }
  }

  class DsStoreAdapter {
    var ds: map<string, Bytes>
    ghost var faults: Log

    function At(key: string): Option<Bytes>
      reads this
    {
      if key in ds then Some(ds[key]) else None
    }

    /** The datastore holds this head, or none. */
    ghost predicate HoldsHead(enc: Codec, head: Option<SignedHead>)
      reads this
    {
      At(HEAD_KEY) == Encoded(enc, head)
    }

    /** Replace: a conditional write. It fails on a fault, the value having been
        written all the same or not, or else exactly when the comparison does. */
    method Replace(key: string, expected: Option<Bytes>, data: Bytes) returns (err: Option<Error>)
      modifies this
      ensures Logged(old(faults), faults, if err == Some(PreconditionFailed) then None else err)
      ensures faults == old(faults) ==>
        if Passes(old(At(key)), expected) then err.None? && ds == old(ds)[key := data]
        else err == Some(PreconditionFailed) && ds == old(ds)
      ensures faults != old(faults) ==>
        && err.Some? && Foreign(err.value)
        && (ds == old(ds) || (Passes(old(At(key)), expected) && ds == old(ds)[key := data]))
    {
      var oldBytes := if expected.Some? then expected.value else [];
      var unreadable;
      unreadable, faults := MayFail(faults, AtHeadCompare);
      if unreadable.Some? {
        return unreadable;
      }
      var cur: Bytes := [];
      if key in ds {
        cur := ds[key];
      } else if expected.Some? {
        return Some(PreconditionFailed);
      }
      if cur != oldBytes {
        return Some(PreconditionFailed);
      }
      var applied: bool := *;
      err, faults := MayFail(faults, AtHeadWrite);
      if err.None? || applied {
        ds := ds[key := data];
      }
    }

    /** ReplaceHead, over bytes, does to the head what a store's head write
        does. */
    method ReplaceHead(enc: Codec, expected: Option<SignedHead>, next: SignedHead, ghost head: Option<SignedHead>)
      returns (err: Option<Error>, ghost head': Option<SignedHead>)
      requires Faithful(enc) && HoldsHead(enc, head)
      modifies this
      ensures HoldsHead(enc, head') && HeadWrite(head, expected, next, err, faults != old(faults), head')
      ensures forall key :: key != HEAD_KEY ==> At(key) == old(At(key))
    {
      HeadsCompareAsBytes(enc, head, expected);
      err := Replace(HEAD_KEY, Encoded(enc, expected), enc(next));
      head' := if ds == old(ds) && err.Some? then head else Some(next);
    }
  }
}
