/** Reconciling a sparse truth relation (pairs `from -> to` stored only for the
    reconstructed objects that have a truth match) into one dense list with an
    entry per object, `-1` where no match exists
    (build/lib/rootable/common/mcLists.py). */
module McLists {
  import opened Common

  /** `sorted(set(range(0, length)) - set(lst))`: the object indices in
      `[0, length)` that the relation does not mention, ascending. */
  function FindMissing(lst: seq<int>, length: nat): (r: seq<nat>)
    ensures forall k :: 0 <= k < |r| ==> r[k] < length
    ensures forall j, k :: 0 <= j < k < |r| ==> r[j] < r[k]
    ensures forall i :: 0 <= i < length ==> (i in r <==> i !in lst)
  {
    if length == 0 then []
    else FindMissing(lst, length - 1) + (if length - 1 in lst then [] else [length - 1])
  }

  /** Only the entries of `lst` inside `[0, length)` matter. */
  lemma {:induction false} FindMissingIgnoresOutOfRange(a: seq<int>, b: seq<int>, length: nat)
    requires forall i :: 0 <= i < length ==> (i in a <==> i in b)
    ensures FindMissing(a, length) == FindMissing(b, length)
  {
    if length > 0 {
      FindMissingIgnoresOutOfRange(a, b, length - 1);
    }
  }

  /** One element of a relation's `to` array. uproot hands out either plain
      numbers or small arrays; `int(x)` raises TypeError on the latter and the
      source then reads `x[0]`. */
  datatype RelationEntry = Scalar(n: int) | Boxed(items: seq<int>)

  /** The integer the fill loop stores for one entry, `None` for IndexError. */
  function EntryValue(e: RelationEntry): Option<int>
  {
    match e
    case Scalar(n) => Some(n)
    case Boxed(items) => if |items| > 0 then Some(items[0]) else None
  }

  /** How many of the positions `0 .. i-1` occur in the relation: the value of
      `fillIndex` when the loop reaches position `i`. */
  function Rank(fromClusters: seq<int>, i: nat): (r: nat)
    ensures r <= i
  {
    if i == 0 then 0 else Rank(fromClusters, i - 1) + (if i - 1 in fromClusters then 1 else 0)
  }

  lemma {:induction false} RankMonotone(fromClusters: seq<int>, i: nat, j: nat)
    requires i <= j
    ensures Rank(fromClusters, i) <= Rank(fromClusters, j)
    ensures i < j && i in fromClusters ==> Rank(fromClusters, i) < Rank(fromClusters, j)
    decreases j - i
  {
    if i < j {
      RankMonotone(fromClusters, i, j - 1);
      if i in fromClusters && i == j - 1 {
        assert Rank(fromClusters, j) == Rank(fromClusters, i) + 1;
      }
    }
  }

  /** The positions that take a value are exactly the non-missing ones:
      after the loop `fillIndex == length - len(missingIndex)`. */
  lemma {:induction false} RankCountsNonMissing(fromClusters: seq<int>, length: nat)
    ensures Rank(fromClusters, length) == length - |FindMissing(fromClusters, length)|
  {
    if length > 0 {
      RankCountsNonMissing(fromClusters, length - 1);
    }
  }

  /** Each value slot `k` below the final count belongs to one non-missing position. */
  lemma {:induction false} RankHits(fromClusters: seq<int>, length: nat, k: nat)
    requires k < Rank(fromClusters, length)
    ensures exists p :: 0 <= p < length && p in fromClusters && Rank(fromClusters, p) == k
  {
    if k < Rank(fromClusters, length - 1) {
      RankHits(fromClusters, length - 1, k);
    } else {
      assert length - 1 in fromClusters && Rank(fromClusters, length - 1) == k;
    }
  }

  /** Position `i` does not make the loop raise: either it is missing, or the
      value it consumes, `toClusters[fillIndex]`, exists and is usable. */
  predicate Usable(fromClusters: seq<int>, toClusters: seq<RelationEntry>, i: nat)
  {
    i in fromClusters ==>
      Rank(fromClusters, i) < |toClusters| && EntryValue(toClusters[Rank(fromClusters, i)]).Some?
  }

  /** None of the positions `0 .. n-1` makes the loop raise. */
  predicate Fillable(fromClusters: seq<int>, toClusters: seq<RelationEntry>, n: nat)
  {
    forall i :: 0 <= i < n ==> Usable(fromClusters, toClusters, i)
  }

  /** One more position that does not raise extends the fillable prefix. */
  lemma FillableStep(fromClusters: seq<int>, toClusters: seq<RelationEntry>, i: nat)
    requires Fillable(fromClusters, toClusters, i) && Usable(fromClusters, toClusters, i)
    ensures Fillable(fromClusters, toClusters, i + 1)
    ensures Rank(fromClusters, i + 1) == Rank(fromClusters, i) + (if i in fromClusters then 1 else 0)
  {
  }

  /** Entry `i` of the filled list. */
  function Slot(fromClusters: seq<int>, toClusters: seq<RelationEntry>, i: nat): int
    requires Usable(fromClusters, toClusters, i)
  {
    if i in fromClusters then EntryValue(toClusters[Rank(fromClusters, i)]).value else -1
  }

  /** What `fillMCList` returns: the dense list, or IndexError when the
      relation's `to` array runs out (or holds an empty array) before every
      non-missing position is filled. */
  function FillSpec(fromClusters: seq<int>, toClusters: seq<RelationEntry>, length: nat): Result<seq<int>>
  {
    if Fillable(fromClusters, toClusters, length) then
      Ok(seq(length, i requires 0 <= i < length && Fillable(fromClusters, toClusters, length) => Slot(fromClusters, toClusters, i)))
    else Err(IndexError)
  }

  /** `fillMCList`: walks the positions, writes `-1` at missing ones and
      otherwise consumes the next value of `toClusters` in supplied order. */
  method FillMCList(fromClusters: seq<int>, toClusters: seq<RelationEntry>, length: nat)
    returns (r: Result<seq<int>>)
    ensures r == FillSpec(fromClusters, toClusters, length)
  {
    var missingIndex := FindMissing(fromClusters, length);
    var testList := new int[length](_ => -1);
    var fillIndex := 0;
    for i := 0 to length
      invariant fillIndex == Rank(fromClusters, i)
      invariant Fillable(fromClusters, toClusters, i)
      invariant forall k :: 0 <= k < i ==> testList[k] == Slot(fromClusters, toClusters, k)
    {
      assert i in missingIndex <==> i !in fromClusters;
      if i in missingIndex {
        testList[i] := -1;
        FillableStep(fromClusters, toClusters, i);
        assert testList[i] == Slot(fromClusters, toClusters, i);
      } else {
        if fillIndex >= |toClusters| {
          assert !Usable(fromClusters, toClusters, i);
          assert !Fillable(fromClusters, toClusters, length);
          return Err(IndexError);
        }
        var value := EntryValue(toClusters[fillIndex]);
        if value.None? {
          assert !Usable(fromClusters, toClusters, i);
          assert !Fillable(fromClusters, toClusters, length);
          return Err(IndexError);
        }
        testList[i] := value.value;
        fillIndex := fillIndex + 1;
        FillableStep(fromClusters, toClusters, i);
        assert testList[i] == Slot(fromClusters, toClusters, i);
      }
    }
    assert forall k :: 0 <= k < length ==> testList[..][k] == Slot(fromClusters, toClusters, k);
    assert Fillable(fromClusters, toClusters, length);
    assert testList[..] == FillSpec(fromClusters, toClusters, length).value;
    r := Ok(testList[..]);
  }

  /** The filled list has exactly `length` entries and `-1` at every missing position. */
  lemma FillShape(fromClusters: seq<int>, toClusters: seq<RelationEntry>, length: nat)
    requires FillSpec(fromClusters, toClusters, length).Ok?
    ensures |FillSpec(fromClusters, toClusters, length).value| == length
    ensures forall i :: i in FindMissing(fromClusters, length) ==> FillSpec(fromClusters, toClusters, length).value[i] == -1
  {
  }

  /** The fill fails exactly when fewer usable values than non-missing
      positions are supplied. */
  lemma {:induction false} FillableIff(fromClusters: seq<int>, toClusters: seq<RelationEntry>, length: nat)
    ensures Fillable(fromClusters, toClusters, length) <==>
      (length - |FindMissing(fromClusters, length)| <= |toClusters| &&
       forall k :: 0 <= k < length - |FindMissing(fromClusters, length)| ==> EntryValue(toClusters[k]).Some?)
  {
    RankCountsNonMissing(fromClusters, length);
    var n := Rank(fromClusters, length);
    if Fillable(fromClusters, toClusters, length) {
      forall k | 0 <= k < n ensures k < |toClusters| && EntryValue(toClusters[k]).Some? {
        RankHits(fromClusters, length, k);
        var p :| 0 <= p < length && p in fromClusters && Rank(fromClusters, p) == k;
        assert Usable(fromClusters, toClusters, p);
      }
      if n > 0 {
        RankHits(fromClusters, length, n - 1);
        var p :| 0 <= p < length && p in fromClusters && Rank(fromClusters, p) == n - 1;
        assert Usable(fromClusters, toClusters, p);
      }
    } else if n <= |toClusters| {
      var i :| 0 <= i < length && !Usable(fromClusters, toClusters, i);
      RankMonotone(fromClusters, i, length);
    }
  }

  /** The k-th non-missing position, counted in ascending order, holds the
      value of `toClusters[k]`, and every one of the first
      `length - len(missing)` values is placed somewhere. */
  lemma FillOrderedMerge(fromClusters: seq<int>, toClusters: seq<RelationEntry>, length: nat, k: nat)
    requires FillSpec(fromClusters, toClusters, length).Ok?
    requires k < length - |FindMissing(fromClusters, length)|
    ensures k < |toClusters| && EntryValue(toClusters[k]).Some?
    ensures exists p :: (0 <= p < length && p !in FindMissing(fromClusters, length) &&
      Rank(fromClusters, p) == k &&
      FillSpec(fromClusters, toClusters, length).value[p] == EntryValue(toClusters[k]).value)
  {
    RankCountsNonMissing(fromClusters, length);
    RankHits(fromClusters, length, k);
    var p :| 0 <= p < length && p in fromClusters && Rank(fromClusters, p) == k;
    assert Usable(fromClusters, toClusters, p);
  }

  /** Values beyond the ones consumed are ignored. */
  lemma FillIgnoresExtras(fromClusters: seq<int>, toClusters: seq<RelationEntry>, extra: seq<RelationEntry>, length: nat)
    requires FillSpec(fromClusters, toClusters, length).Ok?
    ensures FillSpec(fromClusters, toClusters + extra, length) == FillSpec(fromClusters, toClusters, length)
  {
    forall i | 0 <= i < length
      ensures Usable(fromClusters, toClusters + extra, i)
      ensures Slot(fromClusters, toClusters + extra, i) == Slot(fromClusters, toClusters, i)
    {
      assert Usable(fromClusters, toClusters, i);
    }
    assert Fillable(fromClusters, toClusters + extra, length);
    assert FillSpec(fromClusters, toClusters + extra, length).value == FillSpec(fromClusters, toClusters, length).value;
  }

  /** `fillMCList([0, 2], [5, 7], 3) == [5, -1, 7]`. */
  lemma FillExample()
    ensures FillSpec([0, 2], [Scalar(5), Scalar(7)], 3) == Ok([5, -1, 7])
  {
    var from := [0, 2];
    assert 0 in from && 1 !in from && 2 in from;
    assert Rank(from, 0) == 0 && Rank(from, 1) == 1 && Rank(from, 2) == 1;
    var to := [Scalar(5), Scalar(7)];
    assert Usable(from, to, 0) && Usable(from, to, 1) && Usable(from, to, 2);
    assert Fillable(from, to, 3);
    assert Slot(from, to, 0) == 5 && Slot(from, to, 1) == -1 && Slot(from, to, 2) == 7;
    var r := FillSpec(from, to, 3).value;
    assert |r| == 3 && r[0] == 5 && r[1] == -1 && r[2] == 7;
    assert r == [5, -1, 7];
  }
}
