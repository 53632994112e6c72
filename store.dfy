/** The in-memory vector store of pkg/memory/store.go. `Query` is the naive
    prefix the source implements, not a similarity search. */
module VectorStores {
  import opened Wrappers
  import opened Types

  /** The first `k` stored vectors, or all of them when there are fewer. */
  function Nearest(vectors: seq<Vector>, k: int): (r: seq<Vector>)
    requires k >= 0
    ensures |r| == if k < |vectors| then k else |vectors|
    ensures r == vectors[..|r|]
  {
    if k > |vectors| then vectors else vectors[..k]
  }

  /** Later stores never change what a query within the earlier contents
      returns. */
  lemma NearestStable(vectors: seq<Vector>, more: seq<Vector>, k: int)
    requires 0 <= k <= |vectors|
    ensures Nearest(vectors + more, k) == Nearest(vectors, k)
  {
    assert (vectors + more)[..k] == vectors[..k];
  }

  class BaseStore {
    var vectors: seq<Vector>

    /** `NewBaseStore`. */
    constructor ()
      ensures vectors == []
    {
      vectors := [];
    }

    /** `Store(vectors)`: appends them in order, and never fails. */
    method Store(vs: seq<Vector>) returns (r: Outcome)
      modifies this
      ensures vectors == old(vectors) + vs && r == Pass
    {
      vectors := vectors + vs;
      r := Pass;
    }

    /** `Query(query, k)`: ignores the query vector and never fails. A negative
        `k` makes the Go slice expression panic. */
    method Query(query: Vector, k: int) returns (r: Result<seq<Vector>>)
      requires k >= 0
      ensures r == Ok(Nearest(vectors, k))
    {
      var n := k;
      if n > |vectors| {
        n := |vectors|;
      }
      r := Ok(vectors[..n]);
    }
  }

  /** A new store answers every query with nothing. */
  method QueryFresh(query: Vector, k: int) returns (r: Result<seq<Vector>>)
    requires k >= 0
    ensures r == Ok([])
  {
    var s := new BaseStore();
    r := s.Query(query, k);
  }
}
