/**
 * What every public endpoint does with a validated collection: drop the
 * records flagged as drafts, map each remaining record to its public
 * projection, and answer with status 200 and a JSON content type.  The
 * records keep the order in which the collection was read; nothing is
 * sorted, deduplicated or paginated.
 */
module Publication {

  /** An HTTP response as the endpoints build it; the body is the payload before serialisation. */
  datatype Response<T> = Response(status: int, contentType: string, body: seq<T>)

  /** The response every endpoint returns: status 200, `application/json`, the given payload. */
  function Respond<T>(body: seq<T>): Response<T>
  {
    Response(200, "application/json", body)
  }

  /** The records a `.filter(r => !draft(r))` keeps, in their original order. */
  function NonDrafts<R>(records: seq<R>, isDraft: R -> bool): (kept: seq<R>)
    ensures |kept| <= |records|
    ensures forall k :: 0 <= k < |kept| ==> !isDraft(kept[k])
  {
    if records == [] then []
    else if isDraft(records[0]) then NonDrafts(records[1..], isDraft)
    else [records[0]] + NonDrafts(records[1..], isDraft)
  }

  /** The filter followed by `.map(project)`. */
  function Publish<R, P>(records: seq<R>, isDraft: R -> bool, project: R -> P): seq<P>
  {
    var kept := NonDrafts(records, isDraft);
    seq(|kept|, k requires 0 <= k < |kept| => project(kept[k]))
  }

  /** The positions of the records that are not drafts. */
  function KeptPositions<R>(records: seq<R>, isDraft: R -> bool): set<int>
  {
    set i | 0 <= i < |records| && !isDraft(records[i])
  }

  /** Where the record at position `i` lands in the output: the number of non-drafts before it. */
  function Rank<R>(records: seq<R>, isDraft: R -> bool, i: int): nat
    requires 0 <= i <= |records|
  {
    |NonDrafts(records[..i], isDraft)|
  }

  // ---------------------------------------------------------------------------
  // Lemmas about the filter
  // ---------------------------------------------------------------------------

  /** Filtering a concatenation filters each part and concatenates the results. */
  lemma {:induction false} NonDraftsAppend<R>(a: seq<R>, b: seq<R>, isDraft: R -> bool)
    ensures NonDrafts(a + b, isDraft) == NonDrafts(a, isDraft) + NonDrafts(b, isDraft)
    decreases |a|
  {
    if a == [] {
      assert a + b == b;
    } else {
      assert (a + b)[0] == a[0];
      assert (a + b)[1..] == a[1..] + b;
      NonDraftsAppend(a[1..], b, isDraft);
    }
  }

  /** The filter keeps exactly as many records as there are non-draft positions. */
  lemma {:induction false} NonDraftsCount<R>(records: seq<R>, isDraft: R -> bool)
    ensures |NonDrafts(records, isDraft)| == |KeptPositions(records, isDraft)|
    decreases |records|
  {
    if records != [] {
      var n := |records| - 1;
      var front := records[..n];
      assert records == front + [records[n]];
      NonDraftsAppend(front, [records[n]], isDraft);
      NonDraftsCount(front, isDraft);
      assert [records[n]][1..] == [];
      if isDraft(records[n]) {
        assert KeptPositions(records, isDraft) == KeptPositions(front, isDraft);
      } else {
        assert KeptPositions(records, isDraft) == KeptPositions(front, isDraft) + {n};
      }
    }
  }

  /** A record that is not a draft sits in the output at its rank. */
  lemma {:induction false} KeptAtRank<R>(records: seq<R>, isDraft: R -> bool, i: int)
    requires 0 <= i < |records| && !isDraft(records[i])
    ensures Rank(records, isDraft, i) < |NonDrafts(records, isDraft)|
    ensures NonDrafts(records, isDraft)[Rank(records, isDraft, i)] == records[i]
  {
    assert records == records[..i] + records[i..];
    NonDraftsAppend(records[..i], records[i..], isDraft);
    assert records[i..][0] == records[i];
  }

  /** Ranks never decrease along the input, and step past every non-draft. */
  lemma {:induction false} RankIncreases<R>(records: seq<R>, isDraft: R -> bool, i: int, j: int)
    requires 0 <= i < j <= |records|
    ensures Rank(records, isDraft, i) <= Rank(records, isDraft, j)
    ensures !isDraft(records[i]) ==> Rank(records, isDraft, i) < Rank(records, isDraft, j)
  {
    var prefix := records[..j];
    assert prefix == records[..i] + records[i..j];
    assert records[..i] == prefix[..i];
    NonDraftsAppend(records[..i], records[i..j], isDraft);
    assert records[i..j][0] == records[i];
  }

  /** The input position of the k-th record the filter keeps. */
  function KeptIndex<R>(records: seq<R>, isDraft: R -> bool, k: int): (i: int)
    requires 0 <= k < |NonDrafts(records, isDraft)|
    ensures 0 <= i < |records| && !isDraft(records[i])
    ensures NonDrafts(records, isDraft)[k] == records[i]
    decreases |records|
  {
    if isDraft(records[0]) then 1 + KeptIndex(records[1..], isDraft, k)
    else if k == 0 then 0
    else 1 + KeptIndex(records[1..], isDraft, k - 1)
  }

  /** The k-th kept record has rank k: the filter sends it to position k. */
  lemma {:induction false} KeptIndexRank<R>(records: seq<R>, isDraft: R -> bool, k: int)
    requires 0 <= k < |NonDrafts(records, isDraft)|
    ensures Rank(records, isDraft, KeptIndex(records, isDraft, k)) == k
    decreases |records|
  {
    var i := KeptIndex(records, isDraft, k);
    if i > 0 {
      var k' := if isDraft(records[0]) then k else k - 1;
      KeptIndexRank(records[1..], isDraft, k');
      assert records[..i] == [records[0]] + records[1..][..i - 1];
      NonDraftsAppend([records[0]], records[1..][..i - 1], isDraft);
      assert [records[0]][1..] == [];
    }
  }

  /** Two draft tests that agree on every record keep the same records. */
  lemma {:induction false} NonDraftsCongruent<R>(records: seq<R>, d1: R -> bool, d2: R -> bool)
    requires forall i :: 0 <= i < |records| ==> d1(records[i]) == d2(records[i])
    ensures NonDrafts(records, d1) == NonDrafts(records, d2)
    decreases |records|
  {
    if records != [] {
      NonDraftsCongruent(records[1..], d1, d2);
    }
  }

  // ---------------------------------------------------------------------------
  // The filter-then-map contract
  // ---------------------------------------------------------------------------

  /**
   * The published sequence has one element per non-draft record and no
   * other: the record at position i, when not a draft, is projected to
   * position Rank(i); ranks strictly increase, so input order is kept; the
   * element at position k is the projection of the non-draft record
   * KeptIndex(k), whose rank is k.  It is empty exactly when every record is
   * a draft.
   */
  lemma PublishSpec<R, P>(records: seq<R>, isDraft: R -> bool, project: R -> P)
    ensures var out := Publish(records, isDraft, project);
            && |out| == |KeptPositions(records, isDraft)| <= |records|
            && (forall i :: 0 <= i < |records| && !isDraft(records[i]) ==>
                  Rank(records, isDraft, i) < |out| && out[Rank(records, isDraft, i)] == project(records[i]))
            && (forall i, j :: 0 <= i < j < |records| && !isDraft(records[i]) ==>
                  Rank(records, isDraft, i) < Rank(records, isDraft, j))
            && (forall k :: 0 <= k < |out| ==>
                  && Rank(records, isDraft, KeptIndex(records, isDraft, k)) == k
                  && out[k] == project(records[KeptIndex(records, isDraft, k)]))
            && (out == [] <==> forall i :: 0 <= i < |records| ==> isDraft(records[i]))
  {
    var out := Publish(records, isDraft, project);
    var kept := NonDrafts(records, isDraft);
    NonDraftsCount(records, isDraft);
    assert |out| == |kept| == |KeptPositions(records, isDraft)| <= |records|;
    forall i | 0 <= i < |records| && !isDraft(records[i])
      ensures Rank(records, isDraft, i) < |out| && out[Rank(records, isDraft, i)] == project(records[i])
    {
      KeptAtRank(records, isDraft, i);
    }
    forall i, j | 0 <= i < j < |records| && !isDraft(records[i])
      ensures Rank(records, isDraft, i) < Rank(records, isDraft, j)
    {
      RankIncreases(records, isDraft, i, j);
    }
    forall k | 0 <= k < |out|
      ensures Rank(records, isDraft, KeptIndex(records, isDraft, k)) == k
      ensures out[k] == project(records[KeptIndex(records, isDraft, k)])
    {
      KeptIndexRank(records, isDraft, k);
    }
    if out == [] {
      forall i | 0 <= i < |records| ensures isDraft(records[i]) {
        if !isDraft(records[i]) { KeptAtRank(records, isDraft, i); }
      }
    } else {
      var i := KeptIndex(records, isDraft, 0);
    }
  }
}
