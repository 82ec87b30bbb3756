/** The PXD detector's loaders (rootable/detectors/pxd.py): a FancyDict of
    per-cluster columns that `getClusters`, `getDigits` and `getMatrices`
    fill from one event tree at a time, keeping a running cluster count and
    one flag per kind of loaded data. */
module Pxd {
  import opened Common
  import opened FancyDict

  /** A column entry: a number, a position, a selection flag, a file name,
      the cell IDs or charges of one cluster, or an ADC matrix. */
  datatype Value =
    | Num(n: int)
    | Real(x: real)
    | Flag(b: bool)
    | Name(name: Option<string>)
    | Cells(cells: seq<int>)
    | Matrix(m: seq<seq<int>>)

  /** The cluster columns, in the order of `clusterKeys` (lines 39-48). */
  const ClusterKeys: seq<string> :=
    ["clsCharge", "seedCharge", "clsSize", "uSize", "vSize", "uStart", "vStart", "uPosition", "vPosition", "sensorID"]

  /** The digit columns, in the order of `digitKeys` (lines 51-53). */
  const DigitKeys: seq<string> := ["uCellIDs", "vCellIDs", "cellCharges"]

  /** The digit branches of a tree, one array per event, and the
      cluster-to-digit relation: for every event and cluster, the positions
      of the cluster's digits in that event (lines 169-179). */
  datatype DigitBranches = DigitBranches(u: seq<seq<int>>, v: seq<seq<int>>, charges: seq<seq<int>>, relation: seq<seq<seq<int>>>)

  /** What the loaders read from one event tree: the cluster branches, per
      event, when none is missing; the digit branches when none is missing;
      the columns ClustersFromDigits reconstructs inside the regions of
      interest; and those outside them when their branches are there. */
  datatype Tree = Tree(
    clusterBranches: Option<map<string, seq<seq<Value>>>>,
    digitBranches: Option<DigitBranches>,
    inROI: map<string, seq<Value>>,
    outROI: Option<map<string, seq<Value>>>)

  /** Every name in `keys` has a column in `m`. */
  ghost predicate Holds<X>(m: map<string, X>, keys: seq<string>)
  {
    forall j :: 0 <= j < |keys| ==> keys[j] in m
  }

  /** The columns `_process` of ClustersFromDigits returns
      (rootable/detectors/clustersFromDigits.py, lines 241-254). */
  const RecoKeys: seq<string> :=
    ["eventNumber", "clsCharge", "seedCharge", "clsSize", "uSize", "vSize", "uPosition", "vPosition", "sensorID",
     "uCellIDs", "vCellIDs", "cellCharges"]

  /** The cluster columns among them: every one but the start cells. */
  const RecoClusterKeys: seq<string> :=
    ["clsCharge", "seedCharge", "clsSize", "uSize", "vSize", "uPosition", "vPosition", "sensorID"]

  /** `m` has every column ClustersFromDigits returns. */
  ghost predicate Reconstructed(m: map<string, seq<Value>>)
  {
    Holds(m, RecoKeys)
  }

  /** `m` has exactly the columns ClustersFromDigits returns, as every
      reconstruction does. */
  ghost predicate OnlyReconstructed(m: map<string, seq<Value>>)
  {
    forall k :: k in m <==> k in RecoKeys
  }

  /** The cluster loader's view of a tree: the cluster branches, when
      there, hold a branch per cluster column, and the reconstructions hold
      their columns. */
  ghost predicate Shaped(tree: Tree)
  {
    && (tree.clusterBranches.Some? ==> Holds(tree.clusterBranches.value, ClusterKeys))
    && Reconstructed(tree.inROI)
    && (tree.outROI.Some? ==> Reconstructed(tree.outROI.value))
  }

  /** The digit loader's view: the reconstructions hold the digit columns. */
  ghost predicate DigitsShaped(tree: Tree)
  {
    && Holds(tree.inROI, DigitKeys)
    && (tree.outROI.Some? ==> Holds(tree.outROI.value, DigitKeys))
  }

  /** Which cluster names a reconstruction is read with: all ten, as lines
      100-101 and 118 do, or only those it has. */
  datatype Takeover = AsWritten | Corrected

  function TakeoverKeys(call: Takeover): seq<string>
  {
    if call == AsWritten then ClusterKeys else RecoClusterKeys
  }

  /** Either reading starts with the charge, names each column once, reads
      only cluster columns and every one a reconstruction has. */
  lemma TakeoverFacts(call: Takeover)
    ensures var keys := TakeoverKeys(call);
      && |keys| > 0 && keys[0] == "clsCharge" && NoRepeats(keys)
      && (forall j :: 0 <= j < |keys| ==> keys[j] in ClusterKeys && keys[j] !in ["eventNumber", "roiSelected", "fileName"])
  {
  }

  /** The cluster names are distinct, the charge comes first, and none of
      them is one of the names the loaders add. */
  lemma ClusterKeysFacts()
    ensures "clsCharge" == ClusterKeys[0] && "clsCharge" in ClusterKeys
    ensures "eventNumber" !in ClusterKeys && "roiSelected" !in ClusterKeys && "fileName" !in ClusterKeys
  {
  }

  /** The names of the columns the cluster loader adds are distinct. */
  lemma NamesApart()
    ensures "clsCharge" != "roiSelected" && "clsCharge" != "fileName" && "clsCharge" != "eventNumber"
    ensures "roiSelected" != "fileName" && "roiSelected" != "eventNumber" && "fileName" != "eventNumber"
  {
  }

  lemma HoldsPrefix<X>(m: map<string, X>, keys: seq<string>, n: nat)
    requires Holds(m, keys) && n <= |keys|
    ensures Holds(m, keys[..n])
  {
    assert forall j :: 0 <= j < n ==> keys[..n][j] == keys[j];
  }

  /** Where the charge and the event numbers sit among the names. */
  lemma Firsts()
    ensures ClusterKeys[0] == "clsCharge" && RecoKeys[0] == "eventNumber" && RecoKeys[1] == "clsCharge"
  {
  }

  lemma HoldsWithin<X>(m: map<string, X>, n: map<string, X>, keys: seq<string>)
    requires Holds(m, keys) && m.Keys <= n.Keys
    ensures Holds(n, keys)
  {
  }

  /** A reconstruction has the event numbers, the charge and every cluster
      column but the start cells, which come after the first five. */
  lemma RecoFacts()
    ensures RecoKeys[0] == "eventNumber" && RecoKeys[1] == "clsCharge"
    ensures "uStart" !in RecoKeys && ClusterKeys[5] == "uStart"
    ensures forall j :: 0 <= j < |RecoClusterKeys| ==> RecoClusterKeys[j] in RecoKeys
    ensures forall j :: 0 <= j < 5 ==> ClusterKeys[j] in RecoKeys
    ensures ClusterKeys[..5] == ["clsCharge", "seedCharge", "clsSize", "uSize", "vSize"]
  {
  }

  lemma KeysApart()
    ensures NoRepeats(ClusterKeys) && NoRepeats(DigitKeys)
    ensures forall j :: 0 <= j < |ClusterKeys| ==> ClusterKeys[j] !in ["eventNumber", "roiSelected", "fileName", "matrix"] + DigitKeys
  {
  }

  // ---------------------------------------------------------------------
  // _getEventNumbers (lines 128-135)

  function Nums(s: seq<int>): (r: seq<Value>)
    ensures |r| == |s| && forall k :: 0 <= k < |s| ==> r[k] == Num(s[k])
  {
    seq(|s|, k requires 0 <= k < |s| => Num(s[k]))
  }

  /** Line 134 for every event: `i + offset`, once per cluster of event i. */
  function EventPieces<T>(clusters: seq<seq<T>>, offset: int): (r: seq<seq<int>>)
    ensures |r| == |clusters| && forall i :: 0 <= i < |clusters| ==> r[i] == Repeat(i + offset, |clusters[i]|)
  {
    seq(|clusters|, i requires 0 <= i < |clusters| => Repeat(i + offset, |clusters[i]|))
  }

  /** The event-number column: the pieces concatenated, ValueError from
      `np.concatenate` when there are no events. */
  function EventNumbersOf<T>(clusters: seq<seq<T>>, offset: int): (r: Result<seq<int>>)
    ensures r.Err? <==> clusters == []
    ensures r.Err? ==> r.error == ValueError
  {
    if clusters == [] then Err(ValueError) else Ok(Flatten(EventPieces(clusters, offset)))
  }

  /** One event number per cluster, never decreasing, each naming one of
      the events. */
  lemma {:induction false} EventNumbersShape<T>(clusters: seq<seq<T>>, offset: int)
    ensures var ns := Flatten(EventPieces(clusters, offset));
      && |ns| == Sum(Lengths(clusters))
      && (forall a :: 0 <= a < |ns| ==> offset <= ns[a] < offset + |clusters|)
      && (forall a, b :: 0 <= a <= b < |ns| ==> ns[a] <= ns[b])
    decreases |clusters|
  {
    if clusters != [] {
      var n := |clusters|;
      var init := clusters[..n - 1];
      EventNumbersShape(init, offset);
      assert EventPieces(clusters, offset)[..n - 1] == EventPieces(init, offset);
      assert Lengths(clusters)[..n - 1] == Lengths(init);
      var ns := Flatten(EventPieces(clusters, offset));
      var before := Flatten(EventPieces(init, offset));
      var last := Repeat(n - 1 + offset, |clusters[n - 1]|);
      assert ns == before + last;
      forall a | 0 <= a < |ns| ensures offset <= ns[a] < offset + n {
        if a < |before| { assert ns[a] == before[a]; } else { assert ns[a] == last[a - |before|]; }
      }
      forall a, b | 0 <= a <= b < |ns| ensures ns[a] <= ns[b] {
        if a < |before| { assert ns[a] == before[a]; } else { assert ns[a] == last[a - |before|]; }
        if b < |before| { assert ns[b] == before[b]; } else { assert ns[b] == last[b - |before|]; }
      }
    }
  }

  /** Cluster j of event i gets number i + offset, at the position after
      the clusters of the earlier events. */
  lemma {:induction false} EventNumbersAt<T>(clusters: seq<seq<T>>, offset: int, i: nat, j: nat)
    requires i < |clusters| && j < |clusters[i]|
    ensures var ns := Flatten(EventPieces(clusters, offset));
      |Flatten(EventPieces(clusters[..i], offset))| + j < |ns| &&
      ns[|Flatten(EventPieces(clusters[..i], offset))| + j] == i + offset
    decreases |clusters|
  {
    var n := |clusters|;
    var init := clusters[..n - 1];
    assert EventPieces(clusters, offset)[..n - 1] == EventPieces(init, offset);
    var before := Flatten(EventPieces(init, offset));
    assert Flatten(EventPieces(clusters, offset)) == before + Repeat(n - 1 + offset, |clusters[n - 1]|);
    if i < n - 1 {
      EventNumbersAt(init, offset, i, j);
      assert init[..i] == clusters[..i];
    } else {
      assert clusters[..i] == init;
    }
  }

  // ---------------------------------------------------------------------
  // The gather loop of getDigits (lines 181-192)

  /** `cells[idxs]`, numpy indexing by an array of integers: IndexError
      (`None`) when one of them is out of range. */
  function Pick(cells: seq<int>, idxs: seq<int>): (r: Option<seq<int>>)
    ensures r.Some? <==> forall j :: 0 <= j < |idxs| ==> PyIndex(cells, idxs[j]).Some?
    ensures r.Some? ==> |r.value| == |idxs| && forall j :: 0 <= j < |idxs| ==> PyIndex(cells, idxs[j]) == Some(r.value[j])
  {
    if forall j :: 0 <= j < |idxs| ==> PyIndex(cells, idxs[j]).Some? then
      Some(seq(|idxs|, j requires 0 <= j < |idxs| && PyIndex(cells, idxs[j]).Some? => PyIndex(cells, idxs[j]).value))
    else None
  }

  /** The inner loop for one event: `cells[event][cls]` for every relation
      entry `cls` of the event. Indexing the event itself raises only when
      there is an entry to look up. */
  function EventPick(cells: seq<seq<int>>, entries: seq<seq<int>>, event: nat): Result<seq<seq<int>>>
  {
    if entries == [] then Ok([])
    else if event >= |cells| then Err(IndexError)
    else if forall j :: 0 <= j < |entries| ==> Pick(cells[event], entries[j]).Some? then
      Ok(Picks(cells[event], entries))
    else Err(IndexError)
  }

  function Picks(row: seq<int>, entries: seq<seq<int>>): (r: seq<seq<int>>)
    requires forall j :: 0 <= j < |entries| ==> Pick(row, entries[j]).Some?
    ensures |r| == |entries| && forall j :: 0 <= j < |entries| ==> Pick(row, entries[j]) == Some(r[j])
  {
    seq(|entries|, j requires 0 <= j < |entries| => Pick(row, entries[j]).value)
  }

  function Outcome(cells: seq<seq<int>>, rel: seq<seq<seq<int>>>): int -> Result<seq<seq<int>>>
  {
    (e: int) => if 0 <= e < |rel| then EventPick(cells, rel[e], e) else Ok([])
  }

  /** One list of `cells` entries per relation entry, event by event. */
  function Gathered(cells: seq<seq<int>>, rel: seq<seq<seq<int>>>): Result<seq<seq<int>>>
  {
    Collect(Outcome(cells, rel), |rel|)
  }

  /** Entry `idxs` of event `event` names an event or a cell outside the
      digit arrays. */
  ghost predicate Stray(cells: seq<seq<int>>, idxs: seq<int>, event: nat)
  {
    event >= |cells| || Pick(cells[event], idxs).None?
  }

  ghost predicate OutOfRange(cells: seq<seq<int>>, rel: seq<seq<seq<int>>>)
  {
    exists e, j :: 0 <= e < |rel| && 0 <= j < |rel[e]| && Stray(cells, rel[e][j], e)
  }

  lemma EventPickOk(cells: seq<seq<int>>, entries: seq<seq<int>>, event: nat, got: seq<seq<int>>)
    requires |got| == |entries| && (entries != [] ==> event < |cells|)
    requires forall k :: 0 <= k < |entries| ==> event < |cells| && Pick(cells[event], entries[k]) == Some(got[k])
    ensures EventPick(cells, entries, event) == Ok(got)
  {
    if entries != [] {
      assert forall j :: 0 <= j < |entries| ==> Pick(cells[event], entries[j]).Some?;
      assert Picks(cells[event], entries) == got;
    }
  }

  lemma EventPickErr(cells: seq<seq<int>>, entries: seq<seq<int>>, event: nat, j: nat)
    requires j < |entries| && Stray(cells, entries[j], event)
    ensures EventPick(cells, entries, event) == Err(IndexError)
  {
  }

  /** The gather raises IndexError exactly when an entry is out of range. */
  lemma GatheredFails(cells: seq<seq<int>>, rel: seq<seq<seq<int>>>)
    ensures Gathered(cells, rel).Err? <==> OutOfRange(cells, rel)
    ensures Gathered(cells, rel).Err? ==> Gathered(cells, rel).error == IndexError
  {
    var o := Outcome(cells, rel);
    CollectErrIff(o, |rel|);
    if OutOfRange(cells, rel) {
      var e, j :| 0 <= e < |rel| && 0 <= j < |rel[e]| && Stray(cells, rel[e][j], e);
      EventPickErr(cells, rel[e], e, j);
      assert o(e).Err?;
    }
    if Gathered(cells, rel).Err? {
      var e :| 0 <= e < |rel| && o(e).Err? && Gathered(cells, rel).error == o(e).error;
      assert EventPick(cells, rel[e], e).Err?;
      if e >= |cells| {
        assert Stray(cells, rel[e][0], e);
      } else {
        var j :| 0 <= j < |rel[e]| && Pick(cells[e], rel[e][j]).None?;
        assert Stray(cells, rel[e][j], e);
      }
    }
  }

  /** The gathered lists line up with the relation's entries: as many, each
      as long as its entry... */
  lemma {:induction false} GatheredShape(cells: seq<seq<int>>, rel: seq<seq<seq<int>>>, n: nat)
    requires n <= |rel|
    ensures var g := Collect(Outcome(cells, rel), n);
      g.Ok? ==> |g.value| == |Flatten(rel[..n])| && forall p :: 0 <= p < |g.value| ==> |g.value[p]| == |Flatten(rel[..n])[p]|
    decreases n
  {
    if n > 0 {
      var o := Outcome(cells, rel);
      GatheredShape(cells, rel, n - 1);
      assert rel[..n][..n - 1] == rel[..n - 1];
      var g := Collect(o, n);
      if g.Ok? {
        var before := Collect(o, n - 1).value;
        var now := o(n - 1).value;
        var f := Flatten(rel[..n - 1]);
        assert g.value == before + now;
        assert Flatten(rel[..n]) == f + rel[n - 1];
        forall p | 0 <= p < |g.value| ensures |g.value[p]| == |Flatten(rel[..n])[p]| {
          if p < |before| {
            assert g.value[p] == before[p];
          } else {
            assert g.value[p] == now[p - |before|];
          }
        }
      }
    }
  }

  /** ... and for cluster j of event e, the entry after those of the earlier
      events is `cells[e][rel[e][j]]`. */
  lemma {:induction false} GatheredAt(cells: seq<seq<int>>, rel: seq<seq<seq<int>>>, n: nat, e: nat, j: nat)
    requires e < n <= |rel| && j < |rel[e]| && Collect(Outcome(cells, rel), n).Ok?
    ensures e < |cells| && Pick(cells[e], rel[e][j]).Some?
    ensures var g := Collect(Outcome(cells, rel), n).value;
      |Flatten(rel[..e])| + j < |g| && g[|Flatten(rel[..e])| + j] == Pick(cells[e], rel[e][j]).value
    decreases n
  {
    var o := Outcome(cells, rel);
    GatheredShape(cells, rel, n - 1);
    var before := Collect(o, n - 1).value;
    assert Collect(o, n).value == before + o(n - 1).value;
    if e < n - 1 {
      GatheredAt(cells, rel, n - 1, e, j);
    } else {
      assert rel[..n - 1] == rel[..e];
    }
  }

  /** The gather loop for one event, one relation entry at a time. */
  method GatherEvent(d: DigitBranches, event: nat) returns (r: Option<(seq<seq<int>>, seq<seq<int>>, seq<seq<int>>)>)
    requires event < |d.relation|
    ensures var eu, ev, eq := EventPick(d.u, d.relation[event], event), EventPick(d.v, d.relation[event], event),
        EventPick(d.charges, d.relation[event], event);
      && (r.Some? <==> eu.Ok? && ev.Ok? && eq.Ok?)
      && (r.Some? ==> r.value == (eu.value, ev.value, eq.value))
  {
    var entries := d.relation[event];
    var us, vs, qs := [], [], [];
    for j := 0 to |entries|
      invariant |us| == j && |vs| == j && |qs| == j
      invariant j > 0 ==> event < |d.u| && event < |d.v| && event < |d.charges|
      invariant forall k :: 0 <= k < j ==> event < |d.u| && Pick(d.u[event], entries[k]) == Some(us[k])
      invariant forall k :: 0 <= k < j ==> event < |d.v| && Pick(d.v[event], entries[k]) == Some(vs[k])
      invariant forall k :: 0 <= k < j ==> event < |d.charges| && Pick(d.charges[event], entries[k]) == Some(qs[k])
    {
      var pu := if event < |d.u| then Pick(d.u[event], entries[j]) else None;
      var pv := if event < |d.v| then Pick(d.v[event], entries[j]) else None;
      var pq := if event < |d.charges| then Pick(d.charges[event], entries[j]) else None;
      if pu.None? || pv.None? || pq.None? {
        if pu.None? {
          EventPickErr(d.u, entries, event, j);
        } else if pv.None? {
          EventPickErr(d.v, entries, event, j);
        } else {
          EventPickErr(d.charges, entries, event, j);
        }
        return None;
      }
      us, vs, qs := us + [pu.value], vs + [pv.value], qs + [pq.value];
    }
    EventPickOk(d.u, entries, event, us);
    EventPickOk(d.v, entries, event, vs);
    EventPickOk(d.charges, entries, event, qs);
    r := Some((us, vs, qs));
  }

  /** Lines 181-188: the three gathered lists, or IndexError. */
  method GatherDigits(d: DigitBranches) returns (r: Result<(seq<seq<int>>, seq<seq<int>>, seq<seq<int>>)>)
    ensures var gu, gv, gq := Gathered(d.u, d.relation), Gathered(d.v, d.relation), Gathered(d.charges, d.relation);
      && (r.Ok? <==> gu.Ok? && gv.Ok? && gq.Ok?)
      && (r.Ok? ==> r.value == (gu.value, gv.value, gq.value))
      && (r.Err? ==> r.error == IndexError)
  {
    var ou, ov, oq := Outcome(d.u, d.relation), Outcome(d.v, d.relation), Outcome(d.charges, d.relation);
    var n := |d.relation|;
    var us, vs, qs := [], [], [];
    for event := 0 to n
      invariant Collect(ou, event) == Ok(us) && Collect(ov, event) == Ok(vs) && Collect(oq, event) == Ok(qs)
    {
      var picked := GatherEvent(d, event);
      CollectStep(ou, event, n, us);
      CollectStep(ov, event, n, vs);
      CollectStep(oq, event, n, qs);
      if picked.None? {
        return Err(IndexError);
      }
      us, vs, qs := us + picked.value.0, vs + picked.value.1, qs + picked.value.2;
    }
    r := Ok((us, vs, qs));
  }

  // ---------------------------------------------------------------------
  // What the loaders do to the table, as functions of the old contents

  /** `set` for each name of `keys` in turn, with the column `cols` holds. */
  function SetAll(t: Table<Value>, keys: seq<string>, cols: map<string, seq<Value>>): (r: Table<Value>)
    requires WellFormed(t) && Holds(cols, keys)
    ensures WellFormed(r) && t.columns.Keys <= r.columns.Keys
    ensures forall k :: k in keys ==> k in r.columns
    decreases |keys|
  {
    if keys == [] then t
    else
      var init, last := keys[..|keys| - 1], keys[|keys| - 1];
      assert keys == init + [last];
      var before := SetAll(t, init, cols);
      AppendEffect(before, last, cols[last]);
      Append(before, last, cols[last])
  }

  /** Each named column gets its values once, after what it held; the other
      columns are left alone. */
  lemma SetAllEffect(t: Table<Value>, keys: seq<string>, cols: map<string, seq<Value>>)
    requires WellFormed(t) && Holds(cols, keys) && NoRepeats(keys)
    ensures var r := SetAll(t, keys, cols);
      && (forall k :: k !in keys ==> (k in r.columns <==> k in t.columns) && ColumnOr(r, k) == ColumnOr(t, k))
      && (forall j :: 0 <= j < |keys| ==> ColumnOr(r, keys[j]) == ColumnOr(t, keys[j]) + cols[keys[j]])
  {
    SetAllKeeps(t, keys, cols);
    SetAllGrows(t, keys, cols);
  }

  lemma {:induction false} SetAllKeeps(t: Table<Value>, keys: seq<string>, cols: map<string, seq<Value>>)
    requires WellFormed(t) && Holds(cols, keys)
    ensures var r := SetAll(t, keys, cols);
      forall k :: k !in keys ==> (k in r.columns <==> k in t.columns) && ColumnOr(r, k) == ColumnOr(t, k)
    decreases |keys|
  {
    if keys != [] {
      var n := |keys|;
      var init, last := keys[..n - 1], keys[n - 1];
      HoldsPrefix(cols, keys, n - 1);
      SetAllKeeps(t, init, cols);
      AppendEffect(SetAll(t, init, cols), last, cols[last]);
      var r := SetAll(t, keys, cols);
      forall k | k !in keys ensures (k in r.columns <==> k in t.columns) && ColumnOr(r, k) == ColumnOr(t, k) {
        assert k !in init && k != last;
      }
    }
  }

  lemma {:induction false} SetAllGrows(t: Table<Value>, keys: seq<string>, cols: map<string, seq<Value>>)
    requires WellFormed(t) && Holds(cols, keys) && NoRepeats(keys)
    ensures var r := SetAll(t, keys, cols);
      forall j :: 0 <= j < |keys| ==> ColumnOr(r, keys[j]) == ColumnOr(t, keys[j]) + cols[keys[j]]
    decreases |keys|
  {
    if keys != [] {
      var n := |keys|;
      var init, last := keys[..n - 1], keys[n - 1];
      HoldsPrefix(cols, keys, n - 1);
      assert NoRepeats(init) by {
        forall i, j | 0 <= i < j < n - 1 ensures init[i] != init[j] {
          assert init[i] == keys[i] && init[j] == keys[j];
        }
      }
      SetAllGrows(t, init, cols);
      SetAllKeeps(t, init, cols);
      AppendEffect(SetAll(t, init, cols), last, cols[last]);
      var r := SetAll(t, keys, cols);
      forall j | 0 <= j < n ensures ColumnOr(r, keys[j]) == ColumnOr(t, keys[j]) + cols[keys[j]] {
        if j < n - 1 {
          assert init[j] == keys[j] && keys[j] != last;
        } else {
          assert last !in init;
        }
      }
    }
  }

  /** `[x] * n` takes a negative `n` for zero. */
  function Count(n: int): (r: nat)
    ensures n >= 0 ==> r == n
    ensures n < 0 ==> r == 0
  {
    if n < 0 then 0 else n
  }

  /** How many names at the head of `keys` have a column in `cols`: a loop
      of lookups gets that far before the first KeyError. */
  function Present<X>(keys: seq<string>, cols: map<string, X>): (n: nat)
    ensures n <= |keys| && Holds(cols, keys[..n])
    ensures n < |keys| ==> keys[n] !in cols
    ensures n == |keys| <==> Holds(cols, keys)
    decreases |keys|
  {
    if keys == [] then 0
    else if keys[0] !in cols then 0
    else
      var n := 1 + Present(keys[1..], cols);
      assert keys[..n] == [keys[0]] + keys[1..][..n - 1];
      assert keys == [keys[0]] + keys[1..];
      n
  }

  /** The first name missing is the one `Present` counts up to. */
  lemma {:induction false} PresentAt<X>(keys: seq<string>, cols: map<string, X>, m: nat)
    requires m < |keys| && Holds(cols, keys[..m]) && keys[m] !in cols
    ensures Present(keys, cols) == m
    decreases m
  {
    if m > 0 {
      assert keys[..m][0] == keys[0];
      var rest := keys[1..][..m - 1];
      forall j | 0 <= j < |rest|
        ensures rest[j] in cols
      {
        assert rest[j] == keys[..m][j + 1];
      }
      PresentAt(keys[1..], cols, m - 1);
    }
  }

  /** `set` for each name of `keys` in turn, with its column of `cols`, up
      to the first name `cols` lacks: that lookup raises KeyError and the
      names after it are not set. */
  function SetEach(t: Table<Value>, keys: seq<string>, cols: map<string, seq<Value>>): (r: Effect<Value>)
    requires WellFormed(t)
    ensures WellFormed(r.table)
    ensures r.outcome.Ok? <==> Holds(cols, keys)
    ensures r.outcome.Err? ==> r.outcome.error == KeyError
    ensures Holds(cols, keys) ==> r.table == SetAll(t, keys, cols)
  {
    var n := Present(keys, cols);
    if n == |keys| then
      Effect(SetAll(t, keys, cols), Ok(()))
    else
      Effect(SetAll(t, keys[..n], cols), Err(KeyError))
  }

  /** The cluster branches, each concatenated over the events
      (`_getData`, lines 104-106). */
  function BranchColumns(b: map<string, seq<seq<Value>>>): (cols: map<string, seq<Value>>)
    ensures cols.Keys == b.Keys
  {
    map k | k in b :: Flatten(b[k])
  }

  /** Lines 97-106 up to the event numbers: the cluster branches when none
      is missing, else the reconstruction inside the regions of interest,
      read with the names `call` gives. */
  function ClusterSet(call: Takeover, t: Table<Value>, tree: Tree): (r: Effect<Value>)
    requires WellFormed(t)
    ensures WellFormed(r.table)
  {
    match tree.clusterBranches
    case Some(b) => SetEach(t, ClusterKeys, BranchColumns(b))
    case None => SetEach(t, TakeoverKeys(call), tree.inROI)
  }

  /** The event numbers of lines 102 and 107-108: one per cluster of the
      cluster-charge branch, or the reconstructed ones. */
  function SelectedEvents(tree: Tree): (r: Result<seq<Value>>)
    requires Shaped(tree)
  {
    match tree.clusterBranches
    case Some(b) =>
      assert ClusterKeys[0] == "clsCharge";
      (match EventNumbersOf(b["clsCharge"], 0)
       case Err(e) => Err(e)
       case Ok(ns) => Ok(Nums(ns)))
    case None =>
      Firsts();
      Ok(tree.inROI["eventNumber"])
  }

  /** Lines 117-123: the clusters outside the regions of interest, read
      with the names `call` gives, marked unselected and tagged with the
      file name. */
  function Unselected(call: Takeover, out: map<string, seq<Value>>, fileName: Option<string>): (r: Table<Value>)
    requires Reconstructed(out) && Holds(out, TakeoverKeys(call))
    ensures WellFormed(r)
  {
    Firsts();
    TakeoverFacts(call);
    var keys := TakeoverKeys(call);
    var m := |out["clsCharge"]|;
    var cols := map k | k in keys :: out[k];
    Table(keys + ["roiSelected", "fileName", "eventNumber"],
      cols["roiSelected" := Repeat(Flag(false), m)]["fileName" := Repeat(Name(fileName), m)]["eventNumber" := out["eventNumber"]])
  }

  /** The table, the running cluster count and the outcome after a load. */
  datatype Loaded = Loaded(table: Table<Value>, length: int, outcome: Result<()>)

  /** Lines 99-108 after the cluster columns: the event-number column. */
  function WithEvents(t: Table<Value>, tree: Tree): (r: Result<Table<Value>>)
    requires WellFormed(t) && Shaped(tree)
  {
    match SelectedEvents(tree)
    case Err(e) => Err(e)
    case Ok(events) => Ok(Append(t, "eventNumber", events))
  }

  /** Lines 110-113: the clusters beyond the running count are the new
      ones; they are marked selected and tagged with the file name, and the
      count moves to the cluster column's length. */
  function Marked(t: Table<Value>, length: int, fileName: Option<string>): (r: Loaded)
    requires WellFormed(t)
    ensures WellFormed(r.table)
  {
    var total := |ColumnOr(t, "clsCharge")|;
    Loaded(Tagged(t, Count(total - length), fileName), total, Ok(()))
  }

  /** Lines 112-113: `added` rows marked selected and tagged with the file
      name. */
  function Tagged(t: Table<Value>, added: nat, fileName: Option<string>): (r: Table<Value>)
    requires WellFormed(t)
    ensures WellFormed(r)
  {
    Append(Append(t, "roiSelected", Repeat(Flag(true), added)), "fileName", Repeat(Name(fileName), added))
  }

  /** Line 124: `extend` with the unselected clusters `u`, of which there
      are `more`; they are counted first (line 120). */
  function Unselect(t: Table<Value>, length: int, u: Table<Value>, more: nat): (r: Loaded)
    requires WellFormed(t) && WellFormed(u)
  {
    match Extended(t, u)
    case Err(e) => Loaded(t, length + more, Err(e))
    case Ok(t1) => Loaded(t1, length + more, Ok(()))
  }

  /** Lines 96-113 of `getClusters`: the cluster columns and event numbers
      inside the regions of interest, then the marks for the new rows. */
  function SelectedLoaded(call: Takeover, t: Table<Value>, length: int, tree: Tree, fileName: Option<string>): (r: Loaded)
    requires WellFormed(t) && Shaped(tree)
    ensures WellFormed(r.table)
  {
    var s := ClusterSet(call, t, tree);
    if s.outcome.Err? then Loaded(s.table, length, s.outcome)
    else
      match WithEvents(s.table, tree)
      case Err(e) => Loaded(s.table, length, Err(e))
      case Ok(t2) => Marked(t2, length, fileName)
  }

  /** Lines 116-124: the dictionary of line 118 raises KeyError when the
      reconstruction outside the regions of interest lacks one of the
      names `call` reads it with; otherwise its clusters are appended. */
  function OutsideLoaded(call: Takeover, s: Loaded, out: map<string, seq<Value>>, fileName: Option<string>): (r: Loaded)
    requires WellFormed(s.table) && Reconstructed(out)
  {
    var keys := TakeoverKeys(call);
    if Present(keys, out) < |keys| then Loaded(s.table, s.length, Err(KeyError))
    else
      Firsts();
      Unselect(s.table, s.length, Unselected(call, out, fileName), |out["clsCharge"]|)
  }

  /** `getClusters` (lines 89-126): the selected clusters, then, when asked
      for and present, the unselected ones. */
  function ClustersLoaded(call: Takeover, t: Table<Value>, length: int, tree: Tree, fileName: Option<string>, inc: bool): (r: Loaded)
    requires WellFormed(t) && Shaped(tree)
  {
    var s := SelectedLoaded(call, t, length, tree, fileName);
    if s.outcome.Ok? && inc && tree.outROI.Some? then OutsideLoaded(call, s, tree.outROI.value, fileName)
    else s
  }

  // ---------------------------------------------------------------------
  // What getClusters promises about the running count and the marks

  /** The cluster, selection and file-name columns all have one entry per
      counted cluster (a column not yet there counts as empty). */
  ghost predicate Synced(t: Table<Value>, length: int)
  {
    && |ColumnOr(t, "clsCharge")| == length
    && |ColumnOr(t, "roiSelected")| == length
    && |ColumnOr(t, "fileName")| == length
  }

  /** The tree has the cluster branches but no event in them. */
  ghost predicate NoEvents(tree: Tree)
  {
    tree.clusterBranches.Some? && "clsCharge" in tree.clusterBranches.value && tree.clusterBranches.value["clsCharge"] == []
  }

  /** The cluster branches are missing and the reconstruction read in
      their place lacks one of the names `call` reads it with. */
  ghost predicate InsideLacks(call: Takeover, tree: Tree)
  {
    tree.clusterBranches.None? && !Holds(tree.inROI, TakeoverKeys(call))
  }

  /** The clusters outside the regions of interest are asked for, and
      their reconstruction lacks one of the names `call` reads it with. */
  ghost predicate OutsideLacks(call: Takeover, tree: Tree, inc: bool)
  {
    inc && tree.outROI.Some? && !Holds(tree.outROI.value, TakeoverKeys(call))
  }

  /** The cluster charges inside the regions of interest. */
  ghost function Selected(tree: Tree): (r: seq<Value>)
    requires Shaped(tree)
  {
    Firsts();
    match tree.clusterBranches
    case Some(b) => Flatten(b["clsCharge"])
    case None => tree.inROI["clsCharge"]
  }

  /** The cluster charges outside the regions of interest that a call
      adds. */
  ghost function Outside(tree: Tree, inc: bool): (r: seq<Value>)
    requires Shaped(tree)
  {
    Firsts();
    if inc && tree.outROI.Some? then tree.outROI.value["clsCharge"] else []
  }

  /** Every column `extend` of the unselected clusters needs is there. */
  ghost predicate ClusterColumns(call: Takeover, t: Table<Value>)
  {
    Holds(t.columns, TakeoverKeys(call)) && "eventNumber" in t.columns && "roiSelected" in t.columns && "fileName" in t.columns
  }

  /** Lines 97-106: KeyError exactly when the reconstruction read in place
      of the branches lacks a name; otherwise the new charges follow the
      old ones and the marks are not touched yet. */
  lemma ClusterSetErrors(call: Takeover, t: Table<Value>, tree: Tree)
    requires WellFormed(t) && Shaped(tree)
    ensures var s := ClusterSet(call, t, tree);
      && (s.outcome.Err? <==> InsideLacks(call, tree))
      && (s.outcome.Err? ==> s.outcome.error == KeyError)
  {
  }

  lemma ClusterSetStage(call: Takeover, t: Table<Value>, tree: Tree)
    requires WellFormed(t) && Shaped(tree)
    ensures var s := ClusterSet(call, t, tree);
      && (s.outcome.Err? <==> InsideLacks(call, tree))
      && (s.outcome.Err? ==> s.outcome.error == KeyError)
      && (s.outcome.Ok? ==>
        && Holds(s.table.columns, TakeoverKeys(call)) && t.columns.Keys <= s.table.columns.Keys
        && ColumnOr(s.table, "clsCharge") == ColumnOr(t, "clsCharge") + Selected(tree)
        && ColumnOr(s.table, "roiSelected") == ColumnOr(t, "roiSelected")
        && ColumnOr(s.table, "fileName") == ColumnOr(t, "fileName"))
  {
    ClusterKeysFacts();
    KeysApart();
    TakeoverFacts(call);
    var keys := TakeoverKeys(call);
    var s := ClusterSet(call, t, tree);
    if s.outcome.Ok? {
      match tree.clusterBranches
      case Some(b) =>
        SetAllCluster(t, ClusterKeys, BranchColumns(b));
      case None =>
        SetAllCluster(t, keys, tree.inROI);
    }
  }

  /** The cluster names set in turn: the charges grow, the marks and the
      file names are left alone. */
  lemma SetAllCluster(t: Table<Value>, keys: seq<string>, cols: map<string, seq<Value>>)
    requires WellFormed(t) && Holds(cols, keys) && NoRepeats(keys)
    requires |keys| > 0 && keys[0] == "clsCharge" && "roiSelected" !in keys && "fileName" !in keys
    ensures var u := SetAll(t, keys, cols);
      && Holds(u.columns, keys) && t.columns.Keys <= u.columns.Keys
      && ColumnOr(u, "clsCharge") == ColumnOr(t, "clsCharge") + cols["clsCharge"]
      && ColumnOr(u, "roiSelected") == ColumnOr(t, "roiSelected")
      && ColumnOr(u, "fileName") == ColumnOr(t, "fileName")
  {
    SetAllNamed(t, keys, cols, 0);
    SetAllOther(t, keys, cols, "roiSelected");
    SetAllOther(t, keys, cols, "fileName");
  }

  lemma SetAllNamed(t: Table<Value>, keys: seq<string>, cols: map<string, seq<Value>>, j: nat)
    requires WellFormed(t) && Holds(cols, keys) && NoRepeats(keys) && j < |keys|
    ensures ColumnOr(SetAll(t, keys, cols), keys[j]) == ColumnOr(t, keys[j]) + cols[keys[j]]
  {
    SetAllGrows(t, keys, cols);
  }

  lemma SetAllOther(t: Table<Value>, keys: seq<string>, cols: map<string, seq<Value>>, k: string)
    requires WellFormed(t) && Holds(cols, keys) && k !in keys
    ensures ColumnOr(SetAll(t, keys, cols), k) == ColumnOr(t, k)
  {
    SetAllKeeps(t, keys, cols);
  }

  lemma EventsErrors(t1: Table<Value>, tree: Tree)
    requires WellFormed(t1) && Shaped(tree)
    ensures WithEvents(t1, tree).Err? <==> NoEvents(tree)
    ensures WithEvents(t1, tree).Err? ==> WithEvents(t1, tree).error == ValueError
  {
    Firsts();
  }

  lemma EventsStage(t1: Table<Value>, tree: Tree)
    requires WellFormed(t1) && Shaped(tree)
    ensures WithEvents(t1, tree).Err? <==> NoEvents(tree)
    ensures WithEvents(t1, tree).Err? ==> WithEvents(t1, tree).error == ValueError
    ensures WithEvents(t1, tree).Ok? ==> var t2 := WithEvents(t1, tree).value;
      && "eventNumber" in t2.columns && t1.columns.Keys <= t2.columns.Keys
      && ColumnOr(t2, "clsCharge") == ColumnOr(t1, "clsCharge")
      && ColumnOr(t2, "roiSelected") == ColumnOr(t1, "roiSelected")
      && ColumnOr(t2, "fileName") == ColumnOr(t1, "fileName")
  {
    ClusterKeysFacts();
    NamesApart();
    if SelectedEvents(tree).Ok? {
      var ev := SelectedEvents(tree).value;
      AppendKeeps(t1, "eventNumber", ev, "clsCharge");
      AppendKeeps(t1, "eventNumber", ev, "roiSelected");
      AppendKeeps(t1, "eventNumber", ev, "fileName");
      AppendEffect(t1, "eventNumber", ev);
    }
  }

  lemma TaggedStage(t2: Table<Value>, added: nat, fileName: Option<string>)
    requires WellFormed(t2)
    ensures var t4 := Tagged(t2, added, fileName);
      && t2.columns.Keys <= t4.columns.Keys && "roiSelected" in t4.columns && "fileName" in t4.columns
      && ColumnOr(t4, "clsCharge") == ColumnOr(t2, "clsCharge")
      && ColumnOr(t4, "roiSelected") == ColumnOr(t2, "roiSelected") + Repeat(Flag(true), added)
      && ColumnOr(t4, "fileName") == ColumnOr(t2, "fileName") + Repeat(Name(fileName), added)
  {
    NamesApart();
    var t3 := Append(t2, "roiSelected", Repeat(Flag(true), added));
    AppendKeeps(t2, "roiSelected", Repeat(Flag(true), added), "clsCharge");
    AppendKeeps(t2, "roiSelected", Repeat(Flag(true), added), "fileName");
    AppendKeeps(t3, "fileName", Repeat(Name(fileName), added), "clsCharge");
    AppendKeeps(t3, "fileName", Repeat(Name(fileName), added), "roiSelected");
    AppendGrows(t2, "roiSelected", Repeat(Flag(true), added));
    AppendGrows(t3, "fileName", Repeat(Name(fileName), added));
  }

  lemma MarkedStage(t2: Table<Value>, length: int, fileName: Option<string>)
    requires WellFormed(t2) && |ColumnOr(t2, "roiSelected")| == length == |ColumnOr(t2, "fileName")|
    requires |ColumnOr(t2, "clsCharge")| >= length
    ensures var m := Marked(t2, length, fileName);
      && m.outcome == Ok(()) && m.length == |ColumnOr(t2, "clsCharge")|
      && WellFormed(m.table) && Synced(m.table, m.length) && t2.columns.Keys <= m.table.columns.Keys
      && "roiSelected" in m.table.columns && "fileName" in m.table.columns
      && ColumnOr(m.table, "clsCharge") == ColumnOr(t2, "clsCharge")
      && ColumnOr(m.table, "roiSelected") == ColumnOr(t2, "roiSelected") + Repeat(Flag(true), m.length - length)
  {
    TaggedStage(t2, |ColumnOr(t2, "clsCharge")| - length, fileName);
  }

  /** The selected part: KeyError exactly when the reconstruction read in
      place of the branches lacks a name, ValueError exactly when the
      branches hold no event, and the count untouched in both; otherwise
      the new clusters follow the old ones, are counted, and are marked
      selected. */
  lemma SelectedBookkeeping(call: Takeover, t: Table<Value>, length: int, tree: Tree, fileName: Option<string>)
    requires WellFormed(t) && Shaped(tree) && Synced(t, length)
    ensures var s := SelectedLoaded(call, t, length, tree, fileName);
      && (s.outcome.Err? <==> InsideLacks(call, tree) || NoEvents(tree))
      && (s.outcome.Err? ==> s.outcome.error == (if NoEvents(tree) then ValueError else KeyError) && s.length == length)
      && (s.outcome.Ok? ==>
        && WellFormed(s.table) && Synced(s.table, s.length) && s.length == length + |Selected(tree)|
        && ClusterColumns(call, s.table)
        && ColumnOr(s.table, "clsCharge") == ColumnOr(t, "clsCharge") + Selected(tree)
        && ColumnOr(s.table, "roiSelected") == ColumnOr(t, "roiSelected") + Repeat(Flag(true), |Selected(tree)|))
  {
    SelectedErrors(call, t, length, tree, fileName);
    if SelectedLoaded(call, t, length, tree, fileName).outcome.Ok? {
      SelectedOkReads(call, t, length, tree, fileName);
      SelectedMarked(call, t, length, tree, fileName);
    }
  }

  /** The failing cases of `SelectedBookkeeping`. */
  lemma SelectedErrors(call: Takeover, t: Table<Value>, length: int, tree: Tree, fileName: Option<string>)
    requires WellFormed(t) && Shaped(tree)
    ensures var s := SelectedLoaded(call, t, length, tree, fileName);
      && (s.outcome.Err? <==> InsideLacks(call, tree) || NoEvents(tree))
      && (s.outcome.Err? ==> s.outcome.error == (if NoEvents(tree) then ValueError else KeyError) && s.length == length)
  {
    var s1 := ClusterSet(call, t, tree);
    ClusterSetErrors(call, t, tree);
    if s1.outcome.Ok? {
      EventsErrors(s1.table, tree);
    }
  }

  /** The successful case of `SelectedBookkeeping`. */
  lemma SelectedMarked(call: Takeover, t: Table<Value>, length: int, tree: Tree, fileName: Option<string>)
    requires WellFormed(t) && Shaped(tree) && Synced(t, length) && !NoEvents(tree) && !InsideLacks(call, tree)
    ensures var s := SelectedLoaded(call, t, length, tree, fileName);
      && s.outcome.Ok? && WellFormed(s.table) && Synced(s.table, s.length) && s.length == length + |Selected(tree)|
      && ClusterColumns(call, s.table)
      && ColumnOr(s.table, "clsCharge") == ColumnOr(t, "clsCharge") + Selected(tree)
      && ColumnOr(s.table, "roiSelected") == ColumnOr(t, "roiSelected") + Repeat(Flag(true), |Selected(tree)|)
  {
    SelectedMarkedCount(call, t, length, tree, fileName);
    SelectedMarkedColumns(call, t, length, tree, fileName);
  }

  /** The count and the columns present after a successful selected part. */
  lemma SelectedMarkedCount(call: Takeover, t: Table<Value>, length: int, tree: Tree, fileName: Option<string>)
    requires WellFormed(t) && Shaped(tree) && Synced(t, length) && !NoEvents(tree) && !InsideLacks(call, tree)
    ensures var s := SelectedLoaded(call, t, length, tree, fileName);
      && s.outcome.Ok? && WellFormed(s.table) && Synced(s.table, s.length) && s.length == length + |Selected(tree)|
      && ClusterColumns(call, s.table)
  {
    var t1 := ClusterSet(call, t, tree).table;
    ClusterSetStage(call, t, tree);
    EventsMarked(t1, length, tree, fileName);
    var m := Marked(WithEvents(t1, tree).value, length, fileName);
    HoldsWithin(t1.columns, m.table.columns, TakeoverKeys(call));
    SelectedLoadedOk(call, t, length, tree, fileName);
  }

  /** The charges and the marks after a successful selected part. */
  lemma SelectedMarkedColumns(call: Takeover, t: Table<Value>, length: int, tree: Tree, fileName: Option<string>)
    requires WellFormed(t) && Shaped(tree) && Synced(t, length) && SelectedLoaded(call, t, length, tree, fileName).outcome.Ok?
    ensures var s := SelectedLoaded(call, t, length, tree, fileName);
      && ColumnOr(s.table, "clsCharge") == ColumnOr(t, "clsCharge") + Selected(tree)
      && ColumnOr(s.table, "roiSelected") == ColumnOr(t, "roiSelected") + Repeat(Flag(true), |Selected(tree)|)
  {
    SelectedOkReads(call, t, length, tree, fileName);
    var t1 := ClusterSet(call, t, tree).table;
    ClusterSetStage(call, t, tree);
    EventsMarked(t1, length, tree, fileName);
    var m := Marked(WithEvents(t1, tree).value, length, fileName);
    var sel := Selected(tree);
    var marks := ColumnOr(t, "roiSelected");
    assert ColumnOr(t1, "roiSelected") == marks;
    assert |ColumnOr(t1, "clsCharge")| == length + |sel|;
    assert ColumnOr(m.table, "roiSelected") == marks + Repeat(Flag(true), |sel|);
    SelectedLoadedOk(call, t, length, tree, fileName);
  }

  /** The event numbers and the marks added to a table whose cluster
      columns are set. */
  lemma EventsMarked(t1: Table<Value>, length: int, tree: Tree, fileName: Option<string>)
    requires WellFormed(t1) && Shaped(tree) && !NoEvents(tree)
    requires |ColumnOr(t1, "roiSelected")| == length == |ColumnOr(t1, "fileName")|
    requires |ColumnOr(t1, "clsCharge")| >= length
    ensures WithEvents(t1, tree).Ok?
    ensures var m := Marked(WithEvents(t1, tree).value, length, fileName);
      && m.outcome == Ok(()) && WellFormed(m.table) && Synced(m.table, m.length)
      && m.length == |ColumnOr(t1, "clsCharge")| && t1.columns.Keys <= m.table.columns.Keys
      && "eventNumber" in m.table.columns && "roiSelected" in m.table.columns && "fileName" in m.table.columns
      && ColumnOr(m.table, "clsCharge") == ColumnOr(t1, "clsCharge")
      && ColumnOr(m.table, "roiSelected") == ColumnOr(t1, "roiSelected") + Repeat(Flag(true), m.length - length)
  {
    EventsStage(t1, tree);
    MarkedStage(WithEvents(t1, tree).value, length, fileName);
  }

  lemma SelectedLoadedOk(call: Takeover, t: Table<Value>, length: int, tree: Tree, fileName: Option<string>)
    requires WellFormed(t) && Shaped(tree)
    requires ClusterSet(call, t, tree).outcome.Ok? && WithEvents(ClusterSet(call, t, tree).table, tree).Ok?
    ensures SelectedLoaded(call, t, length, tree, fileName) ==
      Marked(WithEvents(ClusterSet(call, t, tree).table, tree).value, length, fileName)
  {
  }

  /** The unselected table has the charges, the marks and the file names
      of the clusters outside the regions of interest. */
  lemma UnselectedColumns(call: Takeover, out: map<string, seq<Value>>, fileName: Option<string>)
    requires Reconstructed(out) && Holds(out, TakeoverKeys(call))
    ensures "clsCharge" in out
    ensures var u := Unselected(call, out, fileName); var m := |out["clsCharge"]|;
      && ColumnOr(u, "clsCharge") == out["clsCharge"]
      && ColumnOr(u, "roiSelected") == Repeat(Flag(false), m)
      && ColumnOr(u, "fileName") == Repeat(Name(fileName), m)
  {
    NamesApart();
    Firsts();
  }

  /** Its columns are among those the selected part has set. */
  lemma UnselectedFits(call: Takeover, out: map<string, seq<Value>>, fileName: Option<string>, t: Table<Value>)
    requires Reconstructed(out) && Holds(out, TakeoverKeys(call)) && ClusterColumns(call, t)
    ensures Unselected(call, out, fileName).columns.Keys <= t.columns.Keys
  {
  }

  /** The unselected part never fails once the selected part has run: the
      clusters follow those already there, are counted, and are marked
      unselected. */
  lemma UnselectBookkeeping(call: Takeover, t: Table<Value>, length: int, u: Table<Value>, more: nat)
    requires WellFormed(t) && ClusterColumns(call, t) && Synced(t, length)
    requires WellFormed(u) && u.columns.Keys <= t.columns.Keys
    requires more == |ColumnOr(u, "clsCharge")| == |ColumnOr(u, "roiSelected")| == |ColumnOr(u, "fileName")|
    ensures var r := Unselect(t, length, u, more);
      && r.outcome == Ok(()) && WellFormed(r.table) && ClusterColumns(call, r.table)
      && Synced(r.table, r.length) && r.length == length + more
      && ColumnOr(r.table, "clsCharge") == ColumnOr(t, "clsCharge") + ColumnOr(u, "clsCharge")
      && ColumnOr(r.table, "roiSelected") == ColumnOr(t, "roiSelected") + ColumnOr(u, "roiSelected")
  {
    TakeoverFacts(call);
    ExtendedColumn(t, u, "clsCharge");
    ExtendedColumn(t, u, "roiSelected");
    ExtendedColumn(t, u, "fileName");
  }

  /** Lines 116-124: KeyError exactly when the reconstruction outside the
      regions of interest lacks one of the names `call` reads it with, and
      then the table and the count are left as the selected part made them;
      otherwise its clusters follow those already loaded, are counted and
      are marked unselected, and `extend` cannot fail. */
  lemma OutsideBookkeeping(call: Takeover, s: Loaded, out: map<string, seq<Value>>, fileName: Option<string>)
    requires Reconstructed(out)
    requires WellFormed(s.table) && ClusterColumns(call, s.table) && Synced(s.table, s.length)
    ensures "clsCharge" in out
    ensures var m := |out["clsCharge"]|; var r := OutsideLoaded(call, s, out, fileName);
      && (r.outcome.Err? <==> !Holds(out, TakeoverKeys(call)))
      && (r.outcome.Err? ==> r.outcome.error == KeyError && r.table == s.table && r.length == s.length)
      && (r.outcome.Ok? ==>
        && Synced(r.table, r.length) && r.length == s.length + m
        && ColumnOr(r.table, "clsCharge") == ColumnOr(s.table, "clsCharge") + out["clsCharge"]
        && ColumnOr(r.table, "roiSelected") == ColumnOr(s.table, "roiSelected") + Repeat(Flag(false), m))
  {
    Firsts();
    if Holds(out, TakeoverKeys(call)) {
      UnselectedColumns(call, out, fileName);
      UnselectedFits(call, out, fileName, s.table);
      UnselectBookkeeping(call, s.table, s.length, Unselected(call, out, fileName), |out["clsCharge"]|);
    }
  }

  /** `getClusters` (lines 89-126) raises ValueError exactly when the
      cluster branches hold no event, and KeyError exactly when, short of
      that, a reconstruction it reads lacks one of the names `call` reads
      it with; `extend` never fails. */
  lemma ClustersOutcome(call: Takeover, t: Table<Value>, length: int, tree: Tree, fileName: Option<string>, inc: bool)
    requires WellFormed(t) && Shaped(tree) && Synced(t, length)
    ensures var r := ClustersLoaded(call, t, length, tree, fileName, inc);
      && (r.outcome.Err? <==> NoEvents(tree) || InsideLacks(call, tree) || OutsideLacks(call, tree, inc))
      && (r.outcome.Err? ==> r.outcome.error == (if NoEvents(tree) then ValueError else KeyError))
  {
    var s := SelectedLoaded(call, t, length, tree, fileName);
    SelectedBookkeeping(call, t, length, tree, fileName);
    if s.outcome.Ok? && inc && tree.outROI.Some? {
      OutsideBookkeeping(call, s, tree.outROI.value, fileName);
    } else {
      assert ClustersLoaded(call, t, length, tree, fileName, inc) == s;
    }
  }

  /** Every reconstruction has the names the corrected reading uses. */
  lemma CorrectedReads(tree: Tree, inc: bool)
    requires Shaped(tree)
    ensures !InsideLacks(Corrected, tree) && !OutsideLacks(Corrected, tree, inc)
  {
    RecoFacts();
  }

  /** Read with the names a reconstruction has, `getClusters` raises
      ValueError exactly when the cluster branches hold no event, and
      nothing else. */
  lemma CorrectedOutcome(t: Table<Value>, length: int, tree: Tree, fileName: Option<string>, inc: bool)
    requires WellFormed(t) && Shaped(tree) && Synced(t, length)
    ensures var r := ClustersLoaded(Corrected, t, length, tree, fileName, inc);
      && (r.outcome.Err? <==> NoEvents(tree))
      && (r.outcome.Err? ==> r.outcome.error == ValueError)
  {
    CorrectedReads(tree, inc);
    ClustersOutcome(Corrected, t, length, tree, fileName, inc);
  }

  /** A reconstruction has no start cells, so the ten names of lines 101
      and 118 always meet a missing one. */
  lemma AsWrittenLacks(m: map<string, seq<Value>>)
    requires OnlyReconstructed(m)
    ensures "uStart" !in m && !Holds(m, TakeoverKeys(AsWritten))
  {
    RecoFacts();
  }

  /** Without the cluster branches, `getClusters` as written sets the
      first five cluster columns, then raises KeyError at `uStart`; the
      count is not moved and nothing is marked. */
  lemma AsWrittenInside(t: Table<Value>, length: int, tree: Tree, fileName: Option<string>, inc: bool)
    requires WellFormed(t) && Shaped(tree) && OnlyReconstructed(tree.inROI) && tree.clusterBranches.None?
    ensures var r := ClustersLoaded(AsWritten, t, length, tree, fileName, inc);
      && r.outcome == Err(KeyError) && r.length == length
      && r.table == SetAll(t, ["clsCharge", "seedCharge", "clsSize", "uSize", "vSize"], tree.inROI)
  {
    RecoFacts();
    AsWrittenLacks(tree.inROI);
    var n := Present(ClusterKeys, tree.inROI);
    assert n == 5;
  }

  /** With the cluster branches and the unselected clusters asked for and
      present, `getClusters` as written has loaded, counted and marked the
      selected clusters when line 118 raises KeyError; the unselected ones
      are neither added nor counted. */
  lemma AsWrittenOutside(t: Table<Value>, length: int, tree: Tree, fileName: Option<string>)
    requires WellFormed(t) && Shaped(tree) && Synced(t, length) && tree.clusterBranches.Some? && !NoEvents(tree)
    requires tree.outROI.Some? && OnlyReconstructed(tree.outROI.value)
    ensures var r := ClustersLoaded(AsWritten, t, length, tree, fileName, true);
      && r.outcome == Err(KeyError) && Synced(r.table, r.length) && r.length == length + |Selected(tree)|
      && ColumnOr(r.table, "clsCharge") == ColumnOr(t, "clsCharge") + Selected(tree)
      && ColumnOr(r.table, "roiSelected") == ColumnOr(t, "roiSelected") + Repeat(Flag(true), |Selected(tree)|)
  {
    SelectedMarked(AsWritten, t, length, tree, fileName);
    AsWrittenLacks(tree.outROI.value);
    OutsideBookkeeping(AsWritten, SelectedLoaded(AsWritten, t, length, tree, fileName), tree.outROI.value, fileName);
  }

  /** `getClusters` keeps the running count equal to the number of cluster
      rows, and every cluster has its mark and its file name. */
  lemma ClustersCounted(call: Takeover, t: Table<Value>, length: int, tree: Tree, fileName: Option<string>, inc: bool)
    requires WellFormed(t) && Shaped(tree) && Synced(t, length)
    ensures var r := ClustersLoaded(call, t, length, tree, fileName, inc);
      r.outcome.Ok? ==> Synced(r.table, r.length) && r.length == length + |Selected(tree)| + |Outside(tree, inc)|
  {
    var s := SelectedLoaded(call, t, length, tree, fileName);
    SelectedBookkeeping(call, t, length, tree, fileName);
    if s.outcome.Ok? && inc && tree.outROI.Some? {
      OutsideBookkeeping(call, s, tree.outROI.value, fileName);
    } else {
      assert ClustersLoaded(call, t, length, tree, fileName, inc) == s;
    }
  }

  /** The clusters inside and then outside the regions of interest follow
      those already there (nothing guards against loading a tree twice). */
  lemma ClustersCharges(call: Takeover, t: Table<Value>, length: int, tree: Tree, fileName: Option<string>, inc: bool)
    requires WellFormed(t) && Shaped(tree) && Synced(t, length)
    ensures var r := ClustersLoaded(call, t, length, tree, fileName, inc);
      r.outcome.Ok? ==> ColumnOr(r.table, "clsCharge") == ColumnOr(t, "clsCharge") + Selected(tree) + Outside(tree, inc)
  {
    var s := SelectedLoaded(call, t, length, tree, fileName);
    if s.outcome.Ok? && inc && tree.outROI.Some? {
      OutsideCharges(call, t, length, tree, fileName);
    } else {
      SelectedCharges(call, t, length, tree, fileName, inc);
    }
  }

  /** The case of `ClustersCharges` without unselected clusters. */
  lemma SelectedCharges(call: Takeover, t: Table<Value>, length: int, tree: Tree, fileName: Option<string>, inc: bool)
    requires WellFormed(t) && Shaped(tree) && Synced(t, length)
    requires !(SelectedLoaded(call, t, length, tree, fileName).outcome.Ok? && inc && tree.outROI.Some?)
    ensures var r := ClustersLoaded(call, t, length, tree, fileName, inc);
      r.outcome.Ok? ==> ColumnOr(r.table, "clsCharge") == ColumnOr(t, "clsCharge") + Selected(tree) + Outside(tree, inc)
  {
    SelectedOnly(call, t, length, tree, fileName, inc);
    if SelectedLoaded(call, t, length, tree, fileName).outcome.Ok? {
      SelectedMarkedColumns(call, t, length, tree, fileName);
      var s := SelectedLoaded(call, t, length, tree, fileName);
      ThenNothing(ColumnOr(s.table, "clsCharge"), ColumnOr(t, "clsCharge") + Selected(tree), Outside(tree, inc));
    }
  }


  lemma ThenNothing<T>(a: seq<T>, b: seq<T>, c: seq<T>)
    requires a == b && c == []
    ensures a == b + c
  {
  }

  /** The selected part succeeds only with events and with every name read. */
  lemma SelectedOkReads(call: Takeover, t: Table<Value>, length: int, tree: Tree, fileName: Option<string>)
    requires WellFormed(t) && Shaped(tree) && SelectedLoaded(call, t, length, tree, fileName).outcome.Ok?
    ensures !NoEvents(tree) && !InsideLacks(call, tree)
  {
    ClusterSetErrors(call, t, tree);
    EventsErrors(ClusterSet(call, t, tree).table, tree);
  }

  /** Without unselected clusters to add, only the selected part loads. */
  lemma SelectedOnly(call: Takeover, t: Table<Value>, length: int, tree: Tree, fileName: Option<string>, inc: bool)
    requires WellFormed(t) && Shaped(tree)
    requires !(SelectedLoaded(call, t, length, tree, fileName).outcome.Ok? && inc && tree.outROI.Some?)
    ensures ClustersLoaded(call, t, length, tree, fileName, inc) == SelectedLoaded(call, t, length, tree, fileName)
    ensures SelectedLoaded(call, t, length, tree, fileName).outcome.Ok? ==> Outside(tree, inc) == []
  {
  }

  /** The case of `ClustersCharges` with unselected clusters. */
  lemma OutsideCharges(call: Takeover, t: Table<Value>, length: int, tree: Tree, fileName: Option<string>)
    requires WellFormed(t) && Shaped(tree) && Synced(t, length)
    requires SelectedLoaded(call, t, length, tree, fileName).outcome.Ok? && tree.outROI.Some?
    ensures var r := ClustersLoaded(call, t, length, tree, fileName, true);
      r.outcome.Ok? ==> ColumnOr(r.table, "clsCharge") == ColumnOr(t, "clsCharge") + Selected(tree) + Outside(tree, true)
  {
    var s := SelectedLoaded(call, t, length, tree, fileName);
    SelectedBookkeeping(call, t, length, tree, fileName);
    OutsideBookkeeping(call, s, tree.outROI.value, fileName);
    assert Outside(tree, true) == tree.outROI.value["clsCharge"];
  }

  /** The new clusters are marked selected and then unselected, in the
      order of their charges. */
  lemma ClustersMarks(call: Takeover, t: Table<Value>, length: int, tree: Tree, fileName: Option<string>, inc: bool)
    requires WellFormed(t) && Shaped(tree) && Synced(t, length)
    ensures var r := ClustersLoaded(call, t, length, tree, fileName, inc);
      r.outcome.Ok? ==>
        ColumnOr(r.table, "roiSelected") == ColumnOr(t, "roiSelected") + Repeat(Flag(true), |Selected(tree)|) + Repeat(Flag(false), |Outside(tree, inc)|)
  {
    var s := SelectedLoaded(call, t, length, tree, fileName);
    if s.outcome.Ok? && inc && tree.outROI.Some? {
      OutsideMarks(call, t, length, tree, fileName);
    } else {
      SelectedMarks(call, t, length, tree, fileName, inc);
    }
  }

  /** The case of `ClustersMarks` without unselected clusters. */
  lemma SelectedMarks(call: Takeover, t: Table<Value>, length: int, tree: Tree, fileName: Option<string>, inc: bool)
    requires WellFormed(t) && Shaped(tree) && Synced(t, length)
    requires !(SelectedLoaded(call, t, length, tree, fileName).outcome.Ok? && inc && tree.outROI.Some?)
    ensures var r := ClustersLoaded(call, t, length, tree, fileName, inc);
      r.outcome.Ok? ==>
        ColumnOr(r.table, "roiSelected") == ColumnOr(t, "roiSelected") + Repeat(Flag(true), |Selected(tree)|) + Repeat(Flag(false), |Outside(tree, inc)|)
  {
    SelectedOnly(call, t, length, tree, fileName, inc);
    if SelectedLoaded(call, t, length, tree, fileName).outcome.Ok? {
      SelectedMarkedColumns(call, t, length, tree, fileName);
      var s := SelectedLoaded(call, t, length, tree, fileName);
      ThenNothing(ColumnOr(s.table, "roiSelected"), ColumnOr(t, "roiSelected") + Repeat(Flag(true), |Selected(tree)|),
        Repeat(Flag(false), |Outside(tree, inc)|));
    }
  }


  /** The case of `ClustersMarks` with unselected clusters. */
  lemma OutsideMarks(call: Takeover, t: Table<Value>, length: int, tree: Tree, fileName: Option<string>)
    requires WellFormed(t) && Shaped(tree) && Synced(t, length)
    requires SelectedLoaded(call, t, length, tree, fileName).outcome.Ok? && tree.outROI.Some?
    ensures var r := ClustersLoaded(call, t, length, tree, fileName, true);
      r.outcome.Ok? ==>
        ColumnOr(r.table, "roiSelected") == ColumnOr(t, "roiSelected") + Repeat(Flag(true), |Selected(tree)|) + Repeat(Flag(false), |Outside(tree, true)|)
  {
    var s := SelectedLoaded(call, t, length, tree, fileName);
    SelectedBookkeeping(call, t, length, tree, fileName);
    OutsideBookkeeping(call, s, tree.outROI.value, fileName);
    assert Outside(tree, true) == tree.outROI.value["clsCharge"];
  }

  function CellsOf(s: seq<seq<int>>): (r: seq<Value>)
    ensures |r| == |s| && forall k :: 0 <= k < |s| ==> r[k] == Cells(s[k])
  {
    seq(|s|, k requires 0 <= k < |s| => Cells(s[k]))
  }

  /** Lines 196-197: the digit columns outside the regions of interest. */
  function DigitTable(out: map<string, seq<Value>>): (r: Table<Value>)
    requires Holds(out, DigitKeys)
    ensures WellFormed(r) && forall k :: k in r.columns <==> k in DigitKeys
  {
    Table(DigitKeys, map k | k in DigitKeys && k in out :: out[k])
  }

  /** The digit columns of lines 164-192: gathered through the relation,
      or the reconstructed ones; IndexError from the gather. */
  function DigitColumns(tree: Tree): (r: Result<map<string, seq<Value>>>)
    requires DigitsShaped(tree)
    ensures r.Ok? ==> Holds(r.value, DigitKeys)
  {
    match tree.digitBranches
    case None => Ok(tree.inROI)
    case Some(d) =>
      var gu, gv, gq := Gathered(d.u, d.relation), Gathered(d.v, d.relation), Gathered(d.charges, d.relation);
      if gu.Ok? && gv.Ok? && gq.Ok? then
        Ok(map["uCellIDs" := CellsOf(gu.value), "vCellIDs" := CellsOf(gv.value), "cellCharges" := CellsOf(gq.value)])
      else Err(IndexError)
  }

  /** Lines 164-192: the digit columns, set one after the other. */
  function DigitsSet(t: Table<Value>, tree: Tree): (r: Effect<Value>)
    requires WellFormed(t) && DigitsShaped(tree)
    ensures WellFormed(r.table)
  {
    match DigitColumns(tree)
    case Err(e) => Effect(t, Err(e))
    case Ok(cols) => Effect(SetAll(t, DigitKeys, cols), Ok(()))
  }

  /** Lines 194-198: the out-of-ROI digits appended. */
  function DigitsOut(t: Table<Value>, tree: Tree, inc: bool): (r: Effect<Value>)
    requires WellFormed(t) && DigitsShaped(tree)
  {
    if inc && tree.outROI.Some? then
      match Extended(t, DigitTable(tree.outROI.value))
      case Err(e) => Effect(t, Err(e))
      case Ok(t1) => Effect(t1, Ok(()))
    else Effect(t, Ok(()))
  }

  /** `getDigits` (lines 151-200). */
  function DigitsLoaded(t: Table<Value>, tree: Tree, inc: bool): (r: Effect<Value>)
    requires WellFormed(t) && DigitsShaped(tree)
  {
    var s := DigitsSet(t, tree);
    if s.outcome.Err? then s else DigitsOut(s.table, tree, inc)
  }

  /** Some relation entry names an event or a cell the digit arrays do not
      have. */
  ghost predicate GatherFails(tree: Tree)
  {
    && tree.digitBranches.Some?
    && var d := tree.digitBranches.value;
      OutOfRange(d.u, d.relation) || OutOfRange(d.v, d.relation) || OutOfRange(d.charges, d.relation)
  }

  /** `getDigits` raises IndexError exactly when the gather meets an entry
      out of range, and then has not touched the table; the unselected
      digits always fit, the digit columns being there by then. */
  lemma DigitsOutcome(t: Table<Value>, tree: Tree, inc: bool)
    requires WellFormed(t) && DigitsShaped(tree)
    ensures var r := DigitsLoaded(t, tree, inc);
      && (r.outcome.Err? <==> GatherFails(tree))
      && (r.outcome.Err? ==> r.outcome.error == IndexError && r.table == t)
  {
    if tree.digitBranches.Some? {
      var d := tree.digitBranches.value;
      GatheredFails(d.u, d.relation);
      GatheredFails(d.v, d.relation);
      GatheredFails(d.charges, d.relation);
    }
  }

  /** After `getDigits` each digit column is what it held, then the digits
      inside the regions of interest, then (when asked for) those outside. */
  lemma DigitsRows(t: Table<Value>, tree: Tree, inc: bool, j: nat)
    requires WellFormed(t) && DigitsShaped(tree) && j < |DigitKeys|
    ensures var r := DigitsLoaded(t, tree, inc); var k := DigitKeys[j];
      r.outcome.Ok? ==>
        && DigitColumns(tree).Ok?
        && ColumnOr(r.table, k) == ColumnOr(t, k) + DigitColumns(tree).value[k]
             + (if inc && tree.outROI.Some? then tree.outROI.value[k] else [])
  {
    var r := DigitsLoaded(t, tree, inc);
    if r.outcome.Ok? {
      var cols := DigitColumns(tree).value;
      KeysApart();
      SetAllNamed(t, DigitKeys, cols, j);
      if inc && tree.outROI.Some? {
        ExtendedColumn(SetAll(t, DigitKeys, cols), DigitTable(tree.outROI.value), DigitKeys[j]);
      }
    }
  }

  /** `getDigits` leaves every other column as it was. */
  lemma DigitsKeep(t: Table<Value>, tree: Tree, inc: bool)
    requires WellFormed(t) && DigitsShaped(tree)
    ensures var r := DigitsLoaded(t, tree, inc);
      forall k :: k !in DigitKeys ==> (k in r.table.columns <==> k in t.columns) && ColumnOr(r.table, k) == ColumnOr(t, k)
  {
    var r := DigitsLoaded(t, tree, inc);
    if r.outcome.Ok? {
      var cols := DigitColumns(tree).value;
      SetAllKeeps(t, DigitKeys, cols);
      if inc && tree.outROI.Some? {
        var t1 := SetAll(t, DigitKeys, cols);
        var u := DigitTable(tree.outROI.value);
        forall k | k !in DigitKeys ensures (k in r.table.columns <==> k in t.columns) && ColumnOr(r.table, k) == ColumnOr(t, k) {
          if k in t1.columns {
            ExtendedColumn(t1, u, k);
          }
        }
      }
    }
  }

  /** The table, the digit flag and the outcome after `getMatrices`. */
  datatype MatrixLoad = MatrixLoad(table: Table<Value>, gotDigits: bool, outcome: Result<()>)

  /** Lines 214-226 once the digits are in: the three digit columns looked
      up (KeyError), the matrices generated and set, and the digits popped
      again when `pop` says this call loaded them. */
  function Matrices(t: Table<Value>, pop: bool, generate: (seq<Value>, seq<Value>, seq<Value>) -> Result<seq<Value>>): (r: Effect<Value>)
    requires WellFormed(t)
  {
    if !("cellCharges" in t.columns && "uCellIDs" in t.columns && "vCellIDs" in t.columns) then
      Effect(t, Err(KeyError))
    else
      match generate(t.columns["cellCharges"], t.columns["uCellIDs"], t.columns["vCellIDs"])
      case Err(e) => Effect(t, Err(e))
      case Ok(m) =>
        var t1 := Append(t, "matrix", m);
        if pop then Effect(Drop(Drop(Drop(t1, "uCellIDs"), "vCellIDs"), "cellCharges"), Ok(()))
        else Effect(t1, Ok(()))
  }

  /** `getMatrices` (lines 202-228), with GenerateMatrices.get as
      `generate`: it receives the charge, u and v columns. The digits are
      loaded first when they are not yet and there is a tree; the flag
      getDigits raised is lowered again once they are popped. */
  function MatricesLoaded(t: Table<Value>, gotDigits: bool, tree: Option<Tree>, inc: bool,
                          generate: (seq<Value>, seq<Value>, seq<Value>) -> Result<seq<Value>>): (r: MatrixLoad)
    requires WellFormed(t) && (tree.Some? ==> DigitsShaped(tree.value))
  {
    if !gotDigits && tree.Some? then
      var loaded := DigitsLoaded(t, tree.value, inc);
      if loaded.outcome.Err? then MatrixLoad(loaded.table, gotDigits, loaded.outcome)
      else
        var m := Matrices(loaded.table, true, generate);
        MatrixLoad(m.table, m.outcome.Err?, m.outcome)
    else
      var m := Matrices(t, false, generate);
      MatrixLoad(m.table, gotDigits, m.outcome)
  }

  lemma MatrixApart()
    ensures "matrix" != "uCellIDs" && "matrix" != "vCellIDs" && "matrix" != "cellCharges"
    ensures "uCellIDs" != "vCellIDs" && "uCellIDs" != "cellCharges" && "vCellIDs" != "cellCharges"
  {
  }

  /** Lines 219-227 on a table that holds the digits: once the matrices are
      in, the digit columns are popped again exactly when `pop` says so,
      and left as they were otherwise. A failure changes nothing. */
  lemma MatricesEffect(t: Table<Value>, pop: bool, generate: (seq<Value>, seq<Value>, seq<Value>) -> Result<seq<Value>>)
    requires WellFormed(t)
    ensures var m := Matrices(t, pop, generate);
      && (m.outcome.Err? ==> m.table == t)
      && (m.outcome.Ok? ==> "matrix" in m.table.columns && forall k :: k in DigitKeys ==> k in t.columns)
      && (m.outcome.Ok? && pop ==> forall k :: k in DigitKeys ==> k !in m.table.columns)
      && (m.outcome.Ok? && !pop ==> forall k :: k in DigitKeys ==> k in m.table.columns && m.table.columns[k] == t.columns[k])
  {
    var m := Matrices(t, pop, generate);
    if m.outcome.Ok? {
      MatrixApart();
      var g := generate(t.columns["cellCharges"], t.columns["uCellIDs"], t.columns["vCellIDs"]).value;
      AppendEffect(t, "matrix", g);
    }
  }

  /** `getMatrices` (lines 202-228): when it loaded the digits itself it
      pops them and lowers the digit flag again, so a successful call
      leaves the flag as it found it; otherwise the digit columns stay. */
  lemma MatricesRestoreDigits(t: Table<Value>, gotDigits: bool, tree: Option<Tree>, inc: bool,
                              generate: (seq<Value>, seq<Value>, seq<Value>) -> Result<seq<Value>>)
    requires WellFormed(t) && (tree.Some? ==> DigitsShaped(tree.value))
    ensures var r := MatricesLoaded(t, gotDigits, tree, inc, generate);
      && (r.outcome.Ok? ==> r.gotDigits == gotDigits && "matrix" in r.table.columns)
      && (r.outcome.Ok? && !gotDigits && tree.Some? ==> forall k :: k in DigitKeys ==> k !in r.table.columns)
      && (r.outcome.Ok? && (gotDigits || tree.None?) ==>
            forall k :: k in DigitKeys ==> k in t.columns && k in r.table.columns && r.table.columns[k] == t.columns[k])
      && (r.outcome.Err? && (gotDigits || tree.None?) ==> r.table == t && r.gotDigits == gotDigits)
      && (r.outcome.Err? && !gotDigits && tree.Some? ==> r.gotDigits == DigitsLoaded(t, tree.value, inc).outcome.Ok?)
  {
    if !gotDigits && tree.Some? {
      var loaded := DigitsLoaded(t, tree.value, inc);
      if loaded.outcome.Ok? {
        MatricesEffect(loaded.table, true, generate);
      }
    } else {
      MatricesEffect(t, false, generate);
    }
  }

  // ---------------------------------------------------------------------
  // The detector object

  /** The seven load flags (lines 62-68). */
  datatype Flags = Flags(clusters: bool, coordinates: bool, sphericals: bool, layers: bool, digits: bool, matrices: bool, mcData: bool)

  class PXD {
    /** The FancyDict the detector extends: its columns. */
    const dict: FancyDict<Value>
    /** `self.length`: the clusters counted so far. */
    var length: int
    /** `gotClusters` ... `gotMCData`. */
    var got: Flags

    ghost predicate Valid()
      reads this, dict
    {
      dict.Valid()
    }

    /** Lines 13-80: nothing loaded, the count at zero. */
    constructor(data: Option<Table<Value>>)
      requires data.Some? ==> WellFormed(data.value)
      ensures Valid() && fresh(dict) && length == 0
      ensures dict.Contents() == if data.Some? then data.value else Table([], map[])
      ensures got == Flags(false, false, false, false, false, false, false)
    {
      dict := new FancyDict(data);
      length := 0;
      got := Flags(false, false, false, false, false, false, false);
    }

    /** The `set` loops of lines 100-101, 104-106 and 166-167: KeyError at
        the first name `cols` lacks. */
    method SetColumns(keys: seq<string>, cols: map<string, seq<Value>>) returns (r: Result<()>)
      requires Valid()
      modifies dict
      ensures Valid() && Effect(dict.Contents(), r) == SetEach(old(dict.Contents()), keys, cols)
    {
      for m := 0 to |keys|
        invariant Holds(cols, keys[..m])
        invariant dict.Valid() && dict.Contents() == SetAll(old(dict.Contents()), keys[..m], cols)
      {
        if keys[m] !in cols {
          PresentAt(keys, cols, m);
          return Err(KeyError);
        }
        assert keys[..m + 1][..m] == keys[..m];
        assert keys[..m + 1] == keys[..m] + [keys[m]];
        dict.Set(keys[m], cols[keys[m]]);
      }
      assert keys[..|keys|] == keys;
      r := Ok(());
    }

    /** `_getEventNumbers` (lines 128-135). */
    method EventNumbers(clusters: seq<seq<Value>>, offset: int) returns (r: Result<()>)
      requires Valid()
      modifies dict
      ensures Valid() && r.Ok? == EventNumbersOf(clusters, offset).Ok?
      ensures r.Err? ==> r.error == ValueError
      ensures dict.Contents() == if r.Ok? then Append(old(dict.Contents()), "eventNumber", Nums(EventNumbersOf(clusters, offset).value)) else old(dict.Contents())
    {
      var pieces := [];
      for i := 0 to |clusters|
        invariant pieces == EventPieces(clusters, offset)[..i]
      {
        assert EventPieces(clusters, offset)[..i + 1] == pieces + [Repeat(i + offset, |clusters[i]|)];
        pieces := pieces + [Repeat(i + offset, |clusters[i]|)];
      }
      assert pieces == EventPieces(clusters, offset);
      if pieces == [] {
        return Err(ValueError);
      }
      dict.Set("eventNumber", Nums(Flatten(pieces)));
      r := Ok(());
    }

    /** Lines 102 and 107-108. */
    method NumberEvents(tree: Tree) returns (r: Result<()>)
      requires Valid() && Shaped(tree)
      modifies dict
      ensures Valid() && r.Ok? == WithEvents(old(dict.Contents()), tree).Ok?
      ensures r.Err? ==> r.error == WithEvents(old(dict.Contents()), tree).error
      ensures dict.Contents() == if r.Ok? then WithEvents(old(dict.Contents()), tree).value else old(dict.Contents())
    {
      if tree.clusterBranches.Some? {
        assert ClusterKeys[0] == "clsCharge";
        r := EventNumbers(tree.clusterBranches.value["clsCharge"], 0);
      } else {
        Firsts();
        dict.Set("eventNumber", tree.inROI["eventNumber"]);
        r := Ok(());
      }
    }

    /** Lines 110-113: the new count. */
    method MarkSelected(length: int, fileName: Option<string>) returns (total: int)
      requires Valid()
      modifies dict
      ensures Valid() && Loaded(dict.Contents(), total, Ok(())) == Marked(old(dict.Contents()), length, fileName)
    {
      total := |ColumnOr(dict.Contents(), "clsCharge")|;
      Tag(Count(total - length), fileName);
    }

    /** Lines 112-113. */
    method Tag(added: nat, fileName: Option<string>)
      requires Valid()
      modifies dict
      ensures Valid() && dict.Contents() == Tagged(old(dict.Contents()), added, fileName)
    {
      dict.Set("roiSelected", Repeat(Flag(true), added));
      dict.Set("fileName", Repeat(Name(fileName), added));
    }

    /** Lines 115-124. */
    method AddUnselected(u: Table<Value>, length: int, more: nat) returns (r: Result<()>)
      requires Valid() && WellFormed(u)
      modifies dict
      ensures Valid() && Loaded(dict.Contents(), length + more, r) == Unselect(old(dict.Contents()), length, u, more)
    {
      r := dict.Extend(u);
      assert r.Ok? ==> r.value == ();
    }

    /** `getClusters` (lines 89-126). The guard of lines 93-94 is commented
        out: every call appends. */
    method LoadSelected(call: Takeover, tree: Tree, fileName: Option<string>, length: int) returns (r: Result<()>, total: int)
      requires Valid() && Shaped(tree)
      modifies dict
      ensures Valid() && Loaded(dict.Contents(), total, r) == SelectedLoaded(call, old(dict.Contents()), length, tree, fileName)
    {
      total := length;
      if tree.clusterBranches.Some? {
        r := SetColumns(ClusterKeys, BranchColumns(tree.clusterBranches.value));
      } else {
        r := SetColumns(TakeoverKeys(call), tree.inROI);
      }
      if r.Err? {
        return;
      }
      r := NumberEvents(tree);
      if r.Err? {
        return;
      }
      assert r.value == ();
      total := MarkSelected(length, fileName);
    }

    method LoadClusters(call: Takeover, tree: Tree, fileName: Option<string>, inc: bool, length: int) returns (r: Result<()>, total: int)
      requires Valid() && Shaped(tree)
      modifies dict
      ensures Valid() && Loaded(dict.Contents(), total, r) == ClustersLoaded(call, old(dict.Contents()), length, tree, fileName, inc)
    {
      r, total := LoadSelected(call, tree, fileName, length);
      if r.Ok? && inc && tree.outROI.Some? {
        var out, keys := tree.outROI.value, TakeoverKeys(call);
        if Present(keys, out) < |keys| {
          return Err(KeyError), total;
        }
        Firsts();
        var more := |out["clsCharge"]|;
        r := AddUnselected(Unselected(call, out, fileName), total, more);
        total := total + more;
      }
    }

    /** `getClusters`, reading a reconstruction with the names `call`
        gives. */
    method GetClusters(call: Takeover, tree: Tree, fileName: Option<string>, inc: bool) returns (r: Result<()>)
      requires Valid() && Shaped(tree)
      modifies this, dict
      ensures Valid() && Loaded(dict.Contents(), length, r) == ClustersLoaded(call, old(dict.Contents()), old(length), tree, fileName, inc)
      ensures got == old(got).(clusters := old(got.clusters) || r.Ok?)
    {
      r, length := LoadClusters(call, tree, fileName, inc, length);
      if r.Ok? {
        assert r.value == ();
        got := got.(clusters := true);
      }
    }

    /** Lines 164-192. */
    method SetDigits(tree: Tree) returns (r: Result<()>)
      requires Valid() && DigitsShaped(tree)
      modifies dict
      ensures Valid() && Effect(dict.Contents(), r) == DigitsSet(old(dict.Contents()), tree)
    {
      if tree.digitBranches.None? {
        r := SetColumns(DigitKeys, tree.inROI);
        return;
      } else {
        var g := GatherDigits(tree.digitBranches.value);
        if g.Err? {
          return Err(g.error);
        }
        var (us, vs, qs) := g.value;
        r := SetColumns(DigitKeys, map["uCellIDs" := CellsOf(us), "vCellIDs" := CellsOf(vs), "cellCharges" := CellsOf(qs)]);
      }
    }

    /** Lines 194-198. */
    method ExtendDigits(tree: Tree, inc: bool) returns (r: Result<()>)
      requires Valid() && DigitsShaped(tree)
      modifies dict
      ensures Valid() && Effect(dict.Contents(), r) == DigitsOut(old(dict.Contents()), tree, inc)
    {
      r := Ok(());
      if inc && tree.outROI.Some? {
        r := dict.Extend(DigitTable(tree.outROI.value));
        assert r.Ok? ==> r.value == ();
      }
    }

    /** `getDigits` (lines 151-200). */
    method GetDigits(tree: Tree, inc: bool) returns (r: Result<()>)
      requires Valid() && DigitsShaped(tree)
      modifies this, dict
      ensures Valid() && Effect(dict.Contents(), r) == DigitsLoaded(old(dict.Contents()), tree, inc)
      ensures length == old(length) && got == old(got).(digits := old(got.digits) || r.Ok?)
    {
      r := LoadDigits(tree, inc);
      if r.Ok? {
        got := got.(digits := true);
      }
    }

    method LoadDigits(tree: Tree, inc: bool) returns (r: Result<()>)
      requires Valid() && DigitsShaped(tree)
      modifies dict
      ensures Valid() && Effect(dict.Contents(), r) == DigitsLoaded(old(dict.Contents()), tree, inc)
    {
      r := SetDigits(tree);
      if r.Err? {
        return;
      }
      r := ExtendDigits(tree, inc);
    }

    /** Lines 214-226. */
    method MakeMatrices(pop: bool, generate: (seq<Value>, seq<Value>, seq<Value>) -> Result<seq<Value>>) returns (r: Result<()>)
      requires Valid()
      modifies dict
      ensures Valid() && Effect(dict.Contents(), r) == Matrices(old(dict.Contents()), pop, generate)
    {
      if !("cellCharges" in dict.data && "uCellIDs" in dict.data && "vCellIDs" in dict.data) {
        return Err(KeyError);
      }
      var matrices := generate(dict.data["cellCharges"], dict.data["uCellIDs"], dict.data["vCellIDs"]);
      if matrices.Err? {
        return Err(matrices.error);
      }
      dict.Set("matrix", matrices.value);
      if pop {
        var _ := dict.Pop("uCellIDs");
        var _ := dict.Pop("vCellIDs");
        var _ := dict.Pop("cellCharges");
      }
      r := Ok(());
    }

    /** `getMatrices` (lines 202-228): digits it has to load itself are
        popped again afterwards. */
    method GetMatrices(tree: Option<Tree>, inc: bool, generate: (seq<Value>, seq<Value>, seq<Value>) -> Result<seq<Value>>)
      returns (r: Result<()>)
      requires Valid() && (tree.Some? ==> DigitsShaped(tree.value))
      modifies this, dict
      ensures Valid() && length == old(length)
      ensures MatrixLoad(dict.Contents(), got.digits, r) == MatricesLoaded(old(dict.Contents()), old(got.digits), tree, inc, generate)
      ensures got == old(got).(digits := got.digits, matrices := old(got.matrices) || r.Ok?)
    {
      var digits;
      r, digits := LoadMatrices(tree, inc, got.digits, generate);
      got := got.(digits := digits, matrices := got.matrices || r.Ok?);
    }

    method LoadMatrices(tree: Option<Tree>, inc: bool, gotDigits: bool, generate: (seq<Value>, seq<Value>, seq<Value>) -> Result<seq<Value>>)
      returns (r: Result<()>, digits: bool)
      requires Valid() && (tree.Some? ==> DigitsShaped(tree.value))
      modifies dict
      ensures Valid() && MatrixLoad(dict.Contents(), digits, r) == MatricesLoaded(old(dict.Contents()), gotDigits, tree, inc, generate)
    {
      var pop := false;
      digits := gotDigits;
      if !gotDigits && tree.Some? {
        r := LoadDigits(tree.value, inc);
        if r.Err? {
          return;
        }
        pop := true;
      }
      r := MakeMatrices(pop, generate);
      if pop {
        digits := r.Err?;
      }
    }
  }
}
