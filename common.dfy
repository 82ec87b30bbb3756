/** Values shared by every component: the Python exceptions the pipeline can
    raise, an option type, Python-style indexing and small facts about
    sequences of integers (sum, first maximum, distinct values). */
module Common {

  /** The exception kinds the modelled code raises; `Err(e)` stands for
      "the call raised e". */
  datatype Error =
    | AssertionError
    | IndexError
    | KeyError
    | ValueError
    | TypeError
    | StopIteration
    | AttributeError
    | FileNotFoundError

  datatype Result<T> = Ok(value: T) | Err(error: Error)

  datatype Option<T> = None | Some(value: T)

  /** `s[i]` for a Python integer index: negative indices count from the
      end, anything else out of range raises IndexError (`None`). */
  function PyIndex<T>(s: seq<T>, i: int): (r: Option<T>)
    ensures r.Some? <==> -|s| <= i < |s|
    ensures 0 <= i < |s| ==> r == Some(s[i])
    ensures -|s| <= i < 0 ==> r == Some(s[|s| + i])
  {
    if 0 <= i < |s| then Some(s[i])
    else if -|s| <= i < 0 then Some(s[|s| + i])
    else None
  }

  /** Sum of a sequence, peeled from the end (the order a loop appends in). */
  function Sum(s: seq<int>): int
  {
    if s == [] then 0 else Sum(s[..|s| - 1]) + s[|s| - 1]
  }

  lemma {:induction false} SumConcat(a: seq<int>, b: seq<int>)
    ensures Sum(a + b) == Sum(a) + Sum(b)
    decreases |b|
  {
    if b == [] {
      assert a + b == a;
    } else {
      assert (a + b)[..|a + b| - 1] == a + b[..|b| - 1];
      SumConcat(a, b[..|b| - 1]);
    }
  }

  /** Index of the FIRST maximum of a non-empty sequence (numpy's argmax). */
  function ArgMax(s: seq<int>): (k: nat)
    requires |s| > 0
    ensures k < |s|
    ensures forall j :: 0 <= j < |s| ==> s[j] <= s[k]
    ensures forall j :: 0 <= j < k ==> s[j] < s[k]
  {
    if |s| == 1 then 0
    else
      var k' := ArgMax(s[..|s| - 1]);
      if s[|s| - 1] > s[k'] then |s| - 1 else k'
  }

  /** The set of values occurring in a sequence (numpy's unique, as a set). */
  function Distinct<T>(s: seq<T>): set<T>
  {
    set x | x in s
  }

  lemma {:induction false} DistinctAtMostLength<T>(s: seq<T>)
    ensures |Distinct(s)| <= |s|
    decreases |s|
  {
    if s != [] {
      var init := s[..|s| - 1];
      DistinctAtMostLength(init);
      assert Distinct(s) == Distinct(init) + {s[|s| - 1]} by {
        forall x | x in s ensures x in init || x == s[|s| - 1] {
          var i :| 0 <= i < |s| && s[i] == x;
          if i < |s| - 1 { assert init[i] == x; }
        }
        assert forall x :: x in init ==> x in s;
      }
    }
  }

  /** Number of non-zero entries (numpy's count_nonzero on a 1-D array). */
  function CountNonZero(s: seq<int>): nat
  {
    if s == [] then 0 else CountNonZero(s[..|s| - 1]) + (if s[|s| - 1] != 0 then 1 else 0)
  }

  lemma {:induction false} CountNonZeroConcat(a: seq<int>, b: seq<int>)
    ensures CountNonZero(a + b) == CountNonZero(a) + CountNonZero(b)
    decreases |b|
  {
    if b == [] {
      assert a + b == a;
    } else {
      assert (a + b)[..|a + b| - 1] == a + b[..|b| - 1];
      CountNonZeroConcat(a, b[..|b| - 1]);
    }
  }

  /** `[x] * n` in Python. */
  function Repeat<T>(x: T, n: nat): (r: seq<T>)
    ensures |r| == n && forall k :: 0 <= k < n ==> r[k] == x
  {
    seq(n, _ => x)
  }

  /** The rows of the outcomes `0 .. n-1`, in order, or the first error. */
  function Collect<T>(outcome: int -> Result<seq<T>>, n: nat): Result<seq<T>>
  {
    if n == 0 then Ok([])
    else
      match Collect(outcome, n - 1)
      case Err(err) => Err(err)
      case Ok(before) =>
        match outcome(n - 1)
        case Err(err) => Err(err)
        case Ok(now) => Ok(before + now)
  }

  /** Once an outcome raises, so does every longer run. */
  lemma {:induction false} ErrorSticks<T>(outcome: int -> Result<seq<T>>, n: nat, m: nat)
    requires n <= m && Collect(outcome, n).Err?
    ensures Collect(outcome, m) == Collect(outcome, n)
    decreases m
  {
    if m > n {
      ErrorSticks(outcome, n, m - 1);
    }
  }

  /** The events' loop step: outcome `i` either adds its rows or makes the
      whole run of `total` raise its error. */
  lemma CollectStep<T>(outcome: int -> Result<seq<T>>, i: nat, total: nat, rows: seq<T>)
    requires i < total && Collect(outcome, i) == Ok(rows)
    ensures outcome(i).Ok? ==> Collect(outcome, i + 1) == Ok(rows + outcome(i).value)
    ensures outcome(i).Err? ==> Collect(outcome, total) == Err(outcome(i).error)
  {
    if outcome(i).Err? {
      ErrorSticks(outcome, i + 1, total);
    }
  }

  /** The run raises exactly when some outcome does, and then with the
      first failing outcome's error. */
  lemma {:induction false} CollectErrIff<T>(outcome: int -> Result<seq<T>>, n: nat)
    ensures Collect(outcome, n).Err? <==> exists i :: 0 <= i < n && outcome(i).Err?
    ensures Collect(outcome, n).Err? ==>
      exists i :: 0 <= i < n && outcome(i).Err? && Collect(outcome, n).error == outcome(i).error &&
        forall l :: 0 <= l < i ==> outcome(l).Ok?
    decreases n
  {
    if n > 0 {
      CollectErrIff(outcome, n - 1);
    }
  }

  /** Outcomes that agree on `0 .. n-1` collect to the same result. */
  lemma {:induction false} CollectAgree<T>(o1: int -> Result<seq<T>>, o2: int -> Result<seq<T>>, n: nat)
    requires forall i :: 0 <= i < n ==> o1(i) == o2(i)
    ensures Collect(o1, n) == Collect(o2, n)
    decreases n
  {
    if n > 0 {
      CollectAgree(o1, o2, n - 1);
    }
  }

  /** Prefixing the rows that a remaining computation yields. */
  function Prepend<T>(a: seq<T>, r: Result<seq<T>>): (q: Result<seq<T>>)
    ensures q.Ok? <==> r.Ok?
    ensures q.Err? ==> q == r
    ensures q.Ok? ==> q.value == a + r.value
  {
    if r.Ok? then Ok(a + r.value) else r
  }

  lemma PrependNothing<T>(r: Result<seq<T>>)
    ensures Prepend([], r) == r
  {
    if r.Ok? {
      assert [] + r.value == r.value;
    }
  }

  lemma PrependTwice<T>(a: seq<T>, b: seq<T>, r: Result<seq<T>>)
    ensures Prepend(a, Prepend(b, r)) == Prepend(a + b, r)
  {
    if r.Ok? {
      assert a + (b + r.value) == (a + b) + r.value;
    }
  }

  /** Outcomes that each succeed with exactly one item collect to one item
      per outcome, in order. */
  lemma {:induction false} CollectSingles<T>(outcome: int -> Result<seq<T>>, n: nat)
    requires forall i :: 0 <= i < n && outcome(i).Ok? ==> |outcome(i).value| == 1
    ensures Collect(outcome, n).Ok? ==>
      |Collect(outcome, n).value| == n &&
      forall k :: 0 <= k < n ==> outcome(k).Ok? && outcome(k).value == [Collect(outcome, n).value[k]]
    decreases n
  {
    if n > 0 {
      CollectSingles(outcome, n - 1);
      var before := Collect(outcome, n - 1);
      if before.Ok? && outcome(n - 1).Ok? {
        var all := before.value + outcome(n - 1).value;
        assert forall k :: 0 <= k < n - 1 ==> all[k] == before.value[k];
        assert outcome(n - 1).value == [all[n - 1]];
      }
    }
  }

  /** `np.hstack` of one-dimensional pieces: their concatenation. */
  function Flatten<T>(ss: seq<seq<T>>): seq<T>
  {
    if ss == [] then [] else Flatten(ss[..|ss| - 1]) + ss[|ss| - 1]
  }

  /** The pieces' lengths. */
  function Lengths<T>(ss: seq<seq<T>>): (r: seq<int>)
    ensures |r| == |ss| && forall k :: 0 <= k < |ss| ==> r[k] == |ss[k]|
  {
    seq(|ss|, k requires 0 <= k < |ss| => |ss[k]|)
  }

  /** The concatenation is as long as the pieces together. */
  lemma {:induction false} FlattenLength<T>(ss: seq<seq<T>>)
    ensures |Flatten(ss)| == Sum(Lengths(ss))
    decreases |ss|
  {
    if ss != [] {
      var init := ss[..|ss| - 1];
      FlattenLength(init);
      assert Lengths(ss)[..|ss| - 1] == Lengths(init);
    }
  }

  /** Pieces of equal lengths concatenate to equal lengths. */
  lemma FlattenSameLength<A, B>(a: seq<seq<A>>, b: seq<seq<B>>)
    requires |a| == |b| && forall k :: 0 <= k < |a| ==> |a[k]| == |b[k]|
    ensures |Flatten(a)| == |Flatten(b)|
  {
    FlattenLength(a);
    FlattenLength(b);
    assert Lengths(a) == Lengths(b);
  }

  /** Outcomes bounded by `bound` collect to at most the bounds' sum. */
  lemma {:induction false} CollectBounded<T>(outcome: int -> Result<seq<T>>, bound: seq<int>, n: nat)
    requires n <= |bound|
    requires forall i :: 0 <= i < n && outcome(i).Ok? ==> |outcome(i).value| <= bound[i]
    ensures Collect(outcome, n).Ok? ==> |Collect(outcome, n).value| <= Sum(bound[..n])
    decreases n
  {
    if n > 0 {
      CollectBounded(outcome, bound, n - 1);
      assert bound[..n][..n - 1] == bound[..n - 1];
    }
  }

  /** Concatenation distributes over the pieces. */
  lemma {:induction false} FlattenConcat<T>(a: seq<seq<T>>, b: seq<seq<T>>)
    ensures Flatten(a + b) == Flatten(a) + Flatten(b)
    decreases |b|
  {
    if b == [] {
      assert a + b == a;
    } else {
      var init, last := b[..|b| - 1], b[|b| - 1];
      assert (a + b)[..|a + b| - 1] == a + init;
      assert (a + b)[|a + b| - 1] == last;
      FlattenConcat(a, init);
      assert Flatten(a + b) == Flatten(a + init) + last;
      assert Flatten(b) == Flatten(init) + last;
    }
  }

  /** Pieces with the same multisets concatenate to the same multiset. */
  lemma {:induction false} FlattenSameMultiset<T>(a: seq<seq<T>>, b: seq<seq<T>>)
    requires |a| == |b| && forall k :: 0 <= k < |a| ==> multiset(a[k]) == multiset(b[k])
    ensures multiset(Flatten(a)) == multiset(Flatten(b))
    decreases |a|
  {
    if a != [] {
      FlattenSameMultiset(a[..|a| - 1], b[..|b| - 1]);
    }
  }

  /** Outcomes whose items carry their outcome's index as `tag` and keep
      their `key`s apart collect to items in ascending tag order whose keys
      differ within each tag. */
  lemma {:induction false} CollectKeyed<T>(outcome: int -> Result<seq<T>>, n: nat, tag: T -> int, key: T -> int)
    requires forall i :: 0 <= i < n && outcome(i).Ok? ==>
      forall a :: 0 <= a < |outcome(i).value| ==> tag(outcome(i).value[a]) == i
    requires forall i :: 0 <= i < n && outcome(i).Ok? ==>
      forall a, b :: 0 <= a < b < |outcome(i).value| ==> key(outcome(i).value[a]) != key(outcome(i).value[b])
    ensures Collect(outcome, n).Ok? ==>
      var rs := Collect(outcome, n).value;
      (forall a :: 0 <= a < |rs| ==> 0 <= tag(rs[a]) < n) &&
      forall a, b :: 0 <= a < b < |rs| ==> tag(rs[a]) <= tag(rs[b]) && (tag(rs[a]) == tag(rs[b]) ==> key(rs[a]) != key(rs[b]))
    decreases n
  {
    if n > 0 && Collect(outcome, n).Ok? {
      CollectKeyed(outcome, n - 1, tag, key);
      assert Collect(outcome, n - 1).Ok? && outcome(n - 1).Ok?;
      var before := Collect(outcome, n - 1).value;
      var now := outcome(n - 1).value;
      var rs := Collect(outcome, n).value;
      assert rs == before + now;
      forall a | 0 <= a < |rs| ensures 0 <= tag(rs[a]) < n {
        if a >= |before| { assert rs[a] == now[a - |before|]; } else { assert rs[a] == before[a]; }
      }
      forall a, b | 0 <= a < b < |rs|
        ensures tag(rs[a]) <= tag(rs[b]) && (tag(rs[a]) == tag(rs[b]) ==> key(rs[a]) != key(rs[b]))
      {
        if a >= |before| { assert rs[a] == now[a - |before|]; } else { assert rs[a] == before[a]; }
        if b >= |before| { assert rs[b] == now[b - |before|]; } else { assert rs[b] == before[b]; }
      }
    }
  }

  /** A sequence without repeats has as many distinct elements as entries. */
  lemma {:induction false} DistinctWithoutRepeats<T>(s: seq<T>)
    requires forall a, b :: 0 <= a < b < |s| ==> s[a] != s[b]
    ensures |Distinct(s)| == |s|
    decreases |s|
  {
    if s != [] {
      var init := s[..|s| - 1];
      DistinctWithoutRepeats(init);
      assert Distinct(s) == Distinct(init) + {s[|s| - 1]} by {
        forall x | x in s ensures x in init || x == s[|s| - 1] {
          var i :| 0 <= i < |s| && s[i] == x;
          if i < |s| - 1 { assert init[i] == x; }
        }
        assert forall x :: x in init ==> x in s;
      }
      assert s[|s| - 1] !in Distinct(init);
    }
  }

  /** `n` copies of `x` add up to `n * x`. */
  lemma {:induction false} SumRepeat(x: int, n: nat)
    ensures Sum(Repeat(x, n)) == n * x
    decreases n
  {
    if n > 0 {
      assert Repeat(x, n)[..n - 1] == Repeat(x, n - 1);
      SumRepeat(x, n - 1);
    }
  }

  lemma AppendAssoc<T>(a: seq<T>, b: seq<T>, c: seq<T>)
    ensures (a + b) + c == a + (b + c)
  {
  }
}
