/** Monte Carlo truth for clusters and digits (rootable/detectors/mcToClusters.py):
    resolving the dense link lists `fillMCList` builds into truth records
    (`_getMCData`), the per-event loop of `MCtoClusters.get`, and the digit
    walk of `MCtoDigits._process`. Momenta are floating-point payloads that
    are only copied; they are an opaque type `M` whose zero is `zero`. */
module McToClusters {
  import opened Common
  import opened McLists
  import opened Panels
  import opened Grid
  import opened ExtractMatrix
  import CFD = ClustersFromDigits
  import L = LegacyClustersFromDigits
  import opened FlatLadder

  /** The truth of one link: pdg code and momentum components. */
  datatype Truth<M> = Truth(pdg: int, px: M, py: M, pz: M)

  /** The four arrays `_getMCData` returns, in its order. */
  datatype MCColumns<M> = MCColumns(pdg: seq<int>, momentumX: seq<M>, momentumY: seq<M>, momentumZ: seq<M>)

  /** numpy accepts index `r` into an array of length `n`. */
  predicate Indexable(n: int, r: int)
  {
    -n <= r < n
  }

  /** The truth `_getMCData` stores for link `r`: zeros for `-1`, otherwise
      the entries at index `r` of the event's arrays; `None` is the
      IndexError of an index out of range. */
  function Resolve<M>(r: int, pdgs: seq<int>, xMom: seq<M>, yMom: seq<M>, zMom: seq<M>, zero: M): Option<Truth<M>>
  {
    if r == -1 then Some(Truth(0, zero, zero, zero))
    else
      match (PyIndex(xMom, r), PyIndex(yMom, r), PyIndex(zMom, r), PyIndex(pdgs, r))
      case (Some(x), Some(y), Some(z), Some(p)) => Some(Truth(p, x, y, z))
      case _ => None
  }

  /** Every link of the list resolves. */
  predicate AllResolve<M>(toClusters: seq<int>, pdgs: seq<int>, xMom: seq<M>, yMom: seq<M>, zMom: seq<M>, zero: M)
  {
    forall i :: 0 <= i < |toClusters| ==> Resolve(toClusters[i], pdgs, xMom, yMom, zMom, zero).Some?
  }

  /** What `_getMCData` returns: one truth per link, or IndexError. */
  function MCDataSpec<M>(toClusters: seq<int>, pdgs: seq<int>, xMom: seq<M>, yMom: seq<M>, zMom: seq<M>, zero: M)
    : Result<MCColumns<M>>
  {
    if AllResolve(toClusters, pdgs, xMom, yMom, zMom, zero) then
      var t := seq(|toClusters|, i requires 0 <= i < |toClusters| && AllResolve(toClusters, pdgs, xMom, yMom, zMom, zero) =>
        Resolve(toClusters[i], pdgs, xMom, yMom, zMom, zero).value);
      Ok(MCColumns(seq(|t|, i requires 0 <= i < |t| => t[i].pdg), seq(|t|, i requires 0 <= i < |t| => t[i].px),
                   seq(|t|, i requires 0 <= i < |t| => t[i].py), seq(|t|, i requires 0 <= i < |t| => t[i].pz)))
    else Err(IndexError)
  }

  /** Entry `i` of the four columns holds `t`. */
  ghost predicate HoldsAt<M>(c: MCColumns<M>, i: int, t: Truth<M>)
    requires 0 <= i < |c.pdg| && i < |c.momentumX| && i < |c.momentumY| && i < |c.momentumZ|
  {
    c.pdg[i] == t.pdg && c.momentumX[i] == t.px && c.momentumY[i] == t.py && c.momentumZ[i] == t.pz
  }

  /** The four columns have one entry per link; a `-1` link holds pdg 0 and
      zero momenta, any other link `r` holds the entries at index `r`, which
      exist. */
  lemma MCDataEntries<M>(toClusters: seq<int>, pdgs: seq<int>, xMom: seq<M>, yMom: seq<M>, zMom: seq<M>, zero: M)
    requires MCDataSpec(toClusters, pdgs, xMom, yMom, zMom, zero).Ok?
    ensures var c := MCDataSpec(toClusters, pdgs, xMom, yMom, zMom, zero).value;
      |c.pdg| == |c.momentumX| == |c.momentumY| == |c.momentumZ| == |toClusters| &&
      (forall i :: 0 <= i < |toClusters| && toClusters[i] == -1 ==> HoldsAt(c, i, Truth(0, zero, zero, zero))) &&
      (forall i :: 0 <= i < |toClusters| && toClusters[i] != -1 ==>
        Indexable(|pdgs|, toClusters[i]) && Indexable(|xMom|, toClusters[i]) &&
        Indexable(|yMom|, toClusters[i]) && Indexable(|zMom|, toClusters[i]) &&
        HoldsAt(c, i, Truth(PyIndex(pdgs, toClusters[i]).value, PyIndex(xMom, toClusters[i]).value,
                            PyIndex(yMom, toClusters[i]).value, PyIndex(zMom, toClusters[i]).value)))
  {
    var c := MCDataSpec(toClusters, pdgs, xMom, yMom, zMom, zero).value;
    forall i | 0 <= i < |toClusters|
      ensures toClusters[i] == -1 ==> HoldsAt(c, i, Truth(0, zero, zero, zero))
      ensures toClusters[i] != -1 ==>
        Indexable(|pdgs|, toClusters[i]) && Indexable(|xMom|, toClusters[i]) &&
        Indexable(|yMom|, toClusters[i]) && Indexable(|zMom|, toClusters[i]) &&
        HoldsAt(c, i, Truth(PyIndex(pdgs, toClusters[i]).value, PyIndex(xMom, toClusters[i]).value,
                            PyIndex(yMom, toClusters[i]).value, PyIndex(zMom, toClusters[i]).value))
    {
      assert Resolve(toClusters[i], pdgs, xMom, yMom, zMom, zero).Some?;
    }
  }

  /** `_getMCData` raises exactly when some link other than `-1` is out of
      range for one of the four arrays. */
  lemma MCDataRaisesIff<M>(toClusters: seq<int>, pdgs: seq<int>, xMom: seq<M>, yMom: seq<M>, zMom: seq<M>, zero: M)
    ensures MCDataSpec(toClusters, pdgs, xMom, yMom, zMom, zero).Err? <==>
      exists i :: 0 <= i < |toClusters| && toClusters[i] != -1 &&
        !(Indexable(|pdgs|, toClusters[i]) && Indexable(|xMom|, toClusters[i]) &&
          Indexable(|yMom|, toClusters[i]) && Indexable(|zMom|, toClusters[i]))
    ensures MCDataSpec(toClusters, pdgs, xMom, yMom, zMom, zero).Err? ==>
      MCDataSpec(toClusters, pdgs, xMom, yMom, zMom, zero).error == IndexError
  {
  }

  /** `_getMCData`: zero-initialised arrays, filled by index for every link
      other than `-1`. */
  method GetMCData<M>(toClusters: seq<int>, pdgs: seq<int>, xMom: seq<M>, yMom: seq<M>, zMom: seq<M>, zero: M)
    returns (r: Result<MCColumns<M>>)
    ensures r == MCDataSpec(toClusters, pdgs, xMom, yMom, zMom, zero)
  {
    var n := |toClusters|;
    var pxList := new M[n](_ => zero);
    var pyList := new M[n](_ => zero);
    var pzList := new M[n](_ => zero);
    var pdgList := new int[n](_ => 0);
    for i := 0 to n
      invariant forall k :: 0 <= k < i ==>
        Resolve(toClusters[k], pdgs, xMom, yMom, zMom, zero) == Some(Truth(pdgList[k], pxList[k], pyList[k], pzList[k]))
      invariant forall k :: i <= k < n ==> pdgList[k] == 0 && pxList[k] == zero && pyList[k] == zero && pzList[k] == zero
    {
      var references := toClusters[i];
      if references == -1 {
        continue;
      }
      var x := PyIndex(xMom, references);
      var y := PyIndex(yMom, references);
      var z := PyIndex(zMom, references);
      var p := PyIndex(pdgs, references);
      if x.None? || y.None? || z.None? || p.None? {
        assert Resolve(toClusters[i], pdgs, xMom, yMom, zMom, zero).None?;
        return Err(IndexError);
      }
      pxList[i] := x.value;
      pyList[i] := y.value;
      pzList[i] := z.value;
      pdgList[i] := p.value;
    }
    assert AllResolve(toClusters, pdgs, xMom, yMom, zMom, zero);
    ghost var c := MCDataSpec(toClusters, pdgs, xMom, yMom, zMom, zero).value;
    assert pdgList[..] == c.pdg;
    assert pxList[..] == c.momentumX;
    assert pyList[..] == c.momentumY;
    assert pzList[..] == c.momentumZ;
    r := Ok(MCColumns(pdgList[..], pxList[..], pyList[..], pzList[..]));
  }

  /** The five columns of a truth table, in the order of the returned dict. */
  datatype MCTable<M> = MCTable(momentumX: seq<M>, momentumY: seq<M>, momentumZ: seq<M>, pdg: seq<int>, clsNumber: seq<int>)

  /** All five columns have the same length. */
  predicate WellShaped<M>(t: MCTable<M>)
  {
    |t.momentumX| == |t.momentumY| == |t.momentumZ| == |t.pdg| == |t.clsNumber|
  }

  /** `np.hstack` of every column of the per-event tables. */
  function HStack<M>(ts: seq<MCTable<M>>): MCTable<M>
  {
    MCTable(Flatten(seq(|ts|, k requires 0 <= k < |ts| => ts[k].momentumX)),
            Flatten(seq(|ts|, k requires 0 <= k < |ts| => ts[k].momentumY)),
            Flatten(seq(|ts|, k requires 0 <= k < |ts| => ts[k].momentumZ)),
            Flatten(seq(|ts|, k requires 0 <= k < |ts| => ts[k].pdg)),
            Flatten(seq(|ts|, k requires 0 <= k < |ts| => ts[k].clsNumber)))
  }

  /** Stacking well-shaped tables gives a well-shaped table whose length is
      the sum of theirs. */
  lemma HStackShape<M>(ts: seq<MCTable<M>>)
    requires forall k :: 0 <= k < |ts| ==> WellShaped(ts[k])
    ensures WellShaped(HStack(ts))
    ensures |HStack(ts).clsNumber| == Sum(seq(|ts|, k requires 0 <= k < |ts| => |ts[k].clsNumber|))
  {
    var cls := seq(|ts|, k requires 0 <= k < |ts| => ts[k].clsNumber);
    FlattenSameLength(seq(|ts|, k requires 0 <= k < |ts| => ts[k].momentumX), cls);
    FlattenSameLength(seq(|ts|, k requires 0 <= k < |ts| => ts[k].momentumY), cls);
    FlattenSameLength(seq(|ts|, k requires 0 <= k < |ts| => ts[k].momentumZ), cls);
    FlattenSameLength(seq(|ts|, k requires 0 <= k < |ts| => ts[k].pdg), cls);
    FlattenLength(cls);
    assert Lengths(cls) == seq(|ts|, k requires 0 <= k < |ts| => |ts[k].clsNumber|);
  }

  /** The jagged arrays `MCtoClusters.get` reads from the tree; only the
      lengths of the per-event cluster charges are used. */
  datatype ClusterTruthInput<M> = ClusterTruthInput(
    pdg: seq<seq<int>>, momentumX: seq<seq<M>>, momentumY: seq<seq<M>>, momentumZ: seq<seq<M>>,
    clusterToMC: seq<seq<RelationEntry>>, mcToCluster: seq<seq<int>>, clusterCounts: seq<nat>)

  /** Event `i` of `get`: the dense link list of its clusters and their truth. */
  function ClusterEvent<M>(input: ClusterTruthInput<M>, zero: M, i: nat): Result<MCTable<M>>
    requires i < |input.clusterToMC|
  {
    if i >= |input.mcToCluster| || i >= |input.clusterCounts| then Err(IndexError)
    else
      match FillSpec(input.mcToCluster[i], input.clusterToMC[i], input.clusterCounts[i])
      case Err(e) => Err(e)
      case Ok(full) =>
        if i >= |input.pdg| || i >= |input.momentumX| || i >= |input.momentumY| || i >= |input.momentumZ| then Err(IndexError)
        else
          match MCDataSpec(full, input.pdg[i], input.momentumX[i], input.momentumY[i], input.momentumZ[i], zero)
          case Err(e) => Err(e)
          case Ok(c) => Ok(MCTable(c.momentumX, c.momentumY, c.momentumZ, c.pdg, full))
  }

  /** The events' outcomes, each a one-table list. */
  function ClusterOutcomes<M>(input: ClusterTruthInput<M>, zero: M): int -> Result<seq<MCTable<M>>>
  {
    i => if 0 <= i < |input.clusterToMC| then
           (match ClusterEvent(input, zero, i) case Err(e) => Err(e) case Ok(t) => Ok([t]))
         else Ok([])
  }

  /** What `MCtoClusters.get` returns: the stacked per-event tables; the
      first event's IndexError; ValueError from stacking no events at all. */
  function ClusterTruthSpec<M>(input: ClusterTruthInput<M>, zero: M): Result<MCTable<M>>
  {
    match Collect(ClusterOutcomes(input, zero), |input.clusterToMC|)
    case Err(e) => Err(e)
    case Ok(ts) => if |input.clusterToMC| == 0 then Err(ValueError) else Ok(HStack(ts))
  }

  /** A successful event holds one row per cluster of the event, with
      well-shaped columns and its dense link list as `clsNumber`. */
  lemma ClusterEventShape<M>(input: ClusterTruthInput<M>, zero: M, i: nat)
    requires i < |input.clusterToMC| && ClusterEvent(input, zero, i).Ok?
    ensures WellShaped(ClusterEvent(input, zero, i).value)
    ensures i < |input.clusterCounts| && |ClusterEvent(input, zero, i).value.clsNumber| == input.clusterCounts[i]
    ensures ClusterEvent(input, zero, i).value.clsNumber ==
      FillSpec(input.mcToCluster[i], input.clusterToMC[i], input.clusterCounts[i]).value
  {
    var full := FillSpec(input.mcToCluster[i], input.clusterToMC[i], input.clusterCounts[i]).value;
    FillShape(input.mcToCluster[i], input.clusterToMC[i], input.clusterCounts[i]);
    MCDataEntries(full, input.pdg[i], input.momentumX[i], input.momentumY[i], input.momentumZ[i], zero);
  }

  /** The collected tables are the events' tables, in order. */
  lemma ClusterTables<M>(input: ClusterTruthInput<M>, zero: M)
    requires Collect(ClusterOutcomes(input, zero), |input.clusterToMC|).Ok?
    ensures var ts := Collect(ClusterOutcomes(input, zero), |input.clusterToMC|).value;
      |ts| == |input.clusterToMC| &&
      forall k :: 0 <= k < |ts| ==> ClusterEvent(input, zero, k).Ok? && ts[k] == ClusterEvent(input, zero, k).value
  {
    var n := |input.clusterToMC|;
    var outcome := ClusterOutcomes(input, zero);
    CollectSingles(outcome, n);
    var ts := Collect(outcome, n).value;
    forall k | 0 <= k < n ensures ClusterEvent(input, zero, k).Ok? && ts[k] == ClusterEvent(input, zero, k).value {
      assert outcome(k).Ok? && outcome(k).value == [ts[k]];
    }
  }

  /** Stacking tables of the given row counts. */
  lemma StackedShape<M>(ts: seq<MCTable<M>>, counts: seq<nat>)
    requires |ts| <= |counts|
    requires forall k :: 0 <= k < |ts| ==> WellShaped(ts[k]) && |ts[k].clsNumber| == counts[k]
    ensures WellShaped(HStack(ts)) && |HStack(ts).clsNumber| == Sum(counts[..|ts|])
  {
    HStackShape(ts);
    assert seq(|ts|, k requires 0 <= k < |ts| => |ts[k].clsNumber|) == counts[..|ts|];
  }

  /** `get` returns well-shaped columns with one row per cluster of the
      `len(clusterToMC)` events. */
  lemma ClusterTruthShape<M>(input: ClusterTruthInput<M>, zero: M)
    requires ClusterTruthSpec(input, zero).Ok?
    ensures WellShaped(ClusterTruthSpec(input, zero).value)
    ensures |input.clusterToMC| <= |input.clusterCounts|
    ensures |ClusterTruthSpec(input, zero).value.clsNumber| == Sum(input.clusterCounts[..|input.clusterToMC|])
  {
    var n := |input.clusterToMC|;
    ClusterTables(input, zero);
    var ts := Collect(ClusterOutcomes(input, zero), n).value;
    forall k | 0 <= k < n ensures WellShaped(ts[k]) && k < |input.clusterCounts| && |ts[k].clsNumber| == input.clusterCounts[k] {
      ClusterEventShape(input, zero, k);
    }
    StackedShape(ts, input.clusterCounts);
  }

  /** `get` raises ValueError exactly when there are no events, and
      otherwise raises only IndexError, exactly when some event does. */
  lemma ClusterTruthErrors<M>(input: ClusterTruthInput<M>, zero: M)
    ensures ClusterTruthSpec(input, zero).Err? <==>
      |input.clusterToMC| == 0 || exists i :: 0 <= i < |input.clusterToMC| && ClusterEvent(input, zero, i).Err?
    ensures ClusterTruthSpec(input, zero) == Err(ValueError) <==> |input.clusterToMC| == 0
    ensures ClusterTruthSpec(input, zero).Err? && |input.clusterToMC| > 0 ==> ClusterTruthSpec(input, zero).error == IndexError
  {
    var n := |input.clusterToMC|;
    var outcome := ClusterOutcomes(input, zero);
    CollectErrIff(outcome, n);
    forall i | 0 <= i < n ensures outcome(i).Err? <==> ClusterEvent(input, zero, i).Err?
      ensures outcome(i).Err? ==> outcome(i).error == IndexError
    {
      if ClusterEvent(input, zero, i).Err? && i < |input.mcToCluster| && i < |input.clusterCounts| {
        var f := FillSpec(input.mcToCluster[i], input.clusterToMC[i], input.clusterCounts[i]);
        if f.Ok? && i < |input.pdg| && i < |input.momentumX| && i < |input.momentumY| && i < |input.momentumZ| {
          MCDataRaisesIff(f.value, input.pdg[i], input.momentumX[i], input.momentumY[i], input.momentumZ[i], zero);
        }
      }
    }
  }

  /** The body of `MCtoClusters.get` for event `i`: fill the link list and
      resolve it. */
  method ClusterEventTable<M>(input: ClusterTruthInput<M>, zero: M, i: nat) returns (r: Result<MCTable<M>>)
    requires i < |input.clusterToMC|
    ensures r == ClusterEvent(input, zero, i)
  {
    if i >= |input.mcToCluster| || i >= |input.clusterCounts| {
      return Err(IndexError);
    }
    var full := FillMCList(input.mcToCluster[i], input.clusterToMC[i], input.clusterCounts[i]);
    if full.Err? {
      return Err(full.error);
    }
    if i >= |input.pdg| || i >= |input.momentumX| || i >= |input.momentumY| || i >= |input.momentumZ| {
      return Err(IndexError);
    }
    var data := GetMCData(full.value, input.pdg[i], input.momentumX[i], input.momentumY[i], input.momentumZ[i], zero);
    if data.Err? {
      return Err(data.error);
    }
    var c := data.value;
    r := Ok(MCTable(c.momentumX, c.momentumY, c.momentumZ, c.pdg, full.value));
  }

  /** `MCtoClusters.get`: per event, store the arrays at the event's index
      of the object arrays; then stack them. */
  method ClusterTruth<M>(input: ClusterTruthInput<M>, zero: M) returns (r: Result<MCTable<M>>)
    ensures r == ClusterTruthSpec(input, zero)
  {
    var n := |input.clusterToMC|;
    ghost var outcome := ClusterOutcomes(input, zero);
    var lists := new MCTable<M>[n](_ => MCTable([], [], [], [], []));
    for i := 0 to n
      invariant Collect(outcome, i) == Ok(lists[..i])
    {
      ghost var before := lists[..i];
      var now := ClusterEventTable(input, zero, i);
      CollectStep(outcome, i, n, before);
      if now.Err? {
        return Err(now.error);
      }
      lists[i] := now.value;
      assert lists[..i + 1] == before + [lists[i]];
    }
    if n == 0 {
      return Err(ValueError);
    }
    assert lists[..n] == lists[..];
    r := Ok(HStack(lists[..]));
  }

  // ---- MCtoDigits._process ----

  /** One truth row of the digit route: the truth and the link it came from. */
  datatype Link<M> = Link(truth: Truth<M>, clsNumber: int)

  /** The five columns of the collected rows. */
  function Tabulate<M>(links: seq<Link<M>>): (t: MCTable<M>)
    ensures WellShaped(t) && |t.clsNumber| == |links|
  {
    MCTable(seq(|links|, k requires 0 <= k < |links| => links[k].truth.px),
            seq(|links|, k requires 0 <= k < |links| => links[k].truth.py),
            seq(|links|, k requires 0 <= k < |links| => links[k].truth.pz),
            seq(|links|, k requires 0 <= k < |links| => links[k].truth.pdg),
            seq(|links|, k requires 0 <= k < |links| => links[k].clsNumber))
  }

  /** The arrays `MCtoDigits._process` reads from the tree, with the four
      per-event digit arrays zipped into digits. */
  datatype DigitTruthInput<M> = DigitTruthInput(
    pdg: seq<seq<int>>, momentumX: seq<seq<M>>, momentumY: seq<seq<M>>, momentumZ: seq<seq<M>>,
    fromDigits: seq<seq<int>>, toDigits: seq<seq<RelationEntry>>, digits: seq<seq<CFD.Digit>>)

  /** The call to `extractMatrix` in the digit loop, as written and as
      evidently intended. */
  datatype Call = AsWritten | Corrected

  /** The window of the digit at `(u, v)`. As written the call passes three
      positional arguments to a function that takes four, which raises
      TypeError before anything else happens; the intended call passes the
      event number and uses the global positions of the window. */
  function ExtractCall(call: Call, g: Matrix, u: int, v: int): (r: Result<Extraction>)
    requires Ladder(g)
    ensures call == AsWritten ==> r == Err(TypeError)
    ensures call == Corrected ==> r == Extract(g, u, v, L.StartSize, L.StartSize)
  {
    match call
    case AsWritten => Err(TypeError)
    case Corrected => Extract(g, u, v, L.StartSize, L.StartSize)
  }

  /** The digit loop of one event from digit `j` on: `known[id]` holds the
      pixels already covered by a window on sensor `id`, `mc` is the dense
      link list. */
  function DigitWalk<M>(call: Call, g: Matrix, ds: seq<CFD.Digit>, mc: seq<int>, pdgs: seq<int>, xs: seq<M>, ys: seq<M>, zs: seq<M>,
                        zero: M, j: nat, known: map<int, set<(int, int)>>): Result<seq<Link<M>>>
    requires j <= |ds| == |mc| && Ladder(g)
    decreases |ds| - j
  {
    if j == |ds| then Ok([])
    else
      var id := ds[j].sensor;
      if id !in known then Err(KeyError)
      else if (ds[j].u, ds[j].v) in known[id] then DigitWalk(call, g, ds, mc, pdgs, xs, ys, zs, zero, j + 1, known)
      else
        match ExtractCall(call, g, ds[j].u, ds[j].v)
        case Err(err) => Err(err)
        case Ok(e) =>
          var covered := known[id := known[id] + L.Pairs(e.globalU, e.globalV)];
          match Resolve(mc[j], pdgs, xs, ys, zs, zero)
          case None => Err(IndexError)
          case Some(t) => Prepend([Link(t, mc[j])], DigitWalk(call, g, ds, mc, pdgs, xs, ys, zs, zero, j + 1, covered))
  }

  /** The checks of event `i` before its digit loop pass: the scatter's
      indices, the relation arrays, the link list and the truth arrays. */
  predicate Prelude<M>(input: DigitTruthInput<M>, i: nat)
    requires i < |input.digits|
  {
    InLadder(input.digits[i]) && i < |input.fromDigits| && i < |input.toDigits| &&
    FillSpec(input.fromDigits[i], input.toDigits[i], |input.digits[i]|).Ok? &&
    i < |input.pdg| && i < |input.momentumX| && i < |input.momentumY| && i < |input.momentumZ|
  }

  /** Event `i` of `_process`. */
  function DigitEvent<M>(call: Call, input: DigitTruthInput<M>, zero: M, i: nat): Result<seq<Link<M>>>
    requires i < |input.digits|
  {
    var ds := input.digits[i];
    if !InLadder(ds) || i >= |input.fromDigits| || i >= |input.toDigits| then Err(IndexError)
    else
      match FillSpec(input.fromDigits[i], input.toDigits[i], |ds|)
      case Err(err) => Err(err)
      case Ok(mc) =>
        if i >= |input.pdg| || i >= |input.momentumX| || i >= |input.momentumY| || i >= |input.momentumZ| then Err(IndexError)
        else if |mc| != |ds| then Err(AssertionError)
        else DigitWalk(call, FlatPlane(ds), ds, mc, input.pdg[i], input.momentumX[i], input.momentumY[i], input.momentumZ[i],
                       zero, 0, NoneKnown())
  }

  function DigitOutcomes<M>(call: Call, input: DigitTruthInput<M>, zero: M): int -> Result<seq<Link<M>>>
  {
    i => if 0 <= i < |input.digits| then DigitEvent(call, input, zero, i) else Ok([])
  }

  /** What `MCtoDigits._process` returns: the truth columns of all events'
      rows in order, or the first failing event's error. */
  function DigitTruthSpec<M>(call: Call, input: DigitTruthInput<M>, zero: M): Result<MCTable<M>>
  {
    match Collect(DigitOutcomes(call, input, zero), |input.digits|)
    case Err(err) => Err(err)
    case Ok(links) => Ok(Tabulate(links))
  }

  /** The dense link list of event `i`, once the checks before the loop pass. */
  function EventLinks<M>(input: DigitTruthInput<M>, i: nat): (mc: seq<int>)
    requires i < |input.digits| && Prelude(input, i)
    ensures |mc| == |input.digits[i]|
  {
    FillShape(input.fromDigits[i], input.toDigits[i], |input.digits[i]|);
    FillSpec(input.fromDigits[i], input.toDigits[i], |input.digits[i]|).value
  }

  /** When the checks before the loop pass, the event is its digit walk over
      the scattered ladder (the explicit assertion on the link list's length
      never fires); otherwise it raises IndexError. */
  lemma DigitEventWalks<M>(call: Call, input: DigitTruthInput<M>, zero: M, i: nat)
    requires i < |input.digits|
    ensures !Prelude(input, i) ==> DigitEvent(call, input, zero, i) == Err(IndexError)
    ensures Prelude(input, i) ==>
      DigitEvent(call, input, zero, i) ==
        DigitWalk(call, FlatPlane(input.digits[i]), input.digits[i], EventLinks(input, i),
                  input.pdg[i], input.momentumX[i], input.momentumY[i], input.momentumZ[i], zero, 0, NoneKnown())
  {
  }

  /** Every row of a walk holds the truth its link resolves to. */
  ghost predicate LinksResolve<M>(links: seq<Link<M>>, mc: seq<int>, pdgs: seq<int>, xs: seq<M>, ys: seq<M>, zs: seq<M>, zero: M)
  {
    forall k :: 0 <= k < |links| ==> links[k].clsNumber in mc && Resolve(links[k].clsNumber, pdgs, xs, ys, zs, zero) == Some(links[k].truth)
  }

  lemma LinksResolvePrepend<M>(l: Link<M>, rest: seq<Link<M>>, mc: seq<int>, pdgs: seq<int>, xs: seq<M>, ys: seq<M>, zs: seq<M>, zero: M)
    requires l.clsNumber in mc && Resolve(l.clsNumber, pdgs, xs, ys, zs, zero) == Some(l.truth)
    requires LinksResolve(rest, mc, pdgs, xs, ys, zs, zero)
    ensures LinksResolve([l] + rest, mc, pdgs, xs, ys, zs, zero)
  {
    assert forall k :: 1 <= k < |[l] + rest| ==> ([l] + rest)[k] == rest[k - 1];
  }

  /** Whatever the call, a walk that succeeds yields at most one row per
      remaining digit, each the resolved truth of one of the event's links;
      it raises KeyError only for a digit whose sensor is not a key. */
  lemma {:induction false} DigitWalkFacts<M>(call: Call, g: Matrix, ds: seq<CFD.Digit>, mc: seq<int>, pdgs: seq<int>,
                                             xs: seq<M>, ys: seq<M>, zs: seq<M>, zero: M, j: nat, known: map<int, set<(int, int)>>)
    requires j <= |ds| == |mc| && Ladder(g)
    ensures var r := DigitWalk(call, g, ds, mc, pdgs, xs, ys, zs, zero, j, known);
      (r.Ok? ==> |r.value| <= |ds| - j && LinksResolve(r.value, mc, pdgs, xs, ys, zs, zero)) &&
      (r == Err(KeyError) ==> exists k :: j <= k < |ds| && ds[k].sensor !in known)
    decreases |ds| - j
  {
    if j < |ds| {
      var id := ds[j].sensor;
      if id in known {
        if (ds[j].u, ds[j].v) in known[id] {
          DigitWalkFacts(call, g, ds, mc, pdgs, xs, ys, zs, zero, j + 1, known);
        } else {
          var e := ExtractCall(call, g, ds[j].u, ds[j].v);
          if e.Ok? {
            var covered := known[id := known[id] + L.Pairs(e.value.globalU, e.value.globalV)];
            DigitWalkFacts(call, g, ds, mc, pdgs, xs, ys, zs, zero, j + 1, covered);
            var rest := DigitWalk(call, g, ds, mc, pdgs, xs, ys, zs, zero, j + 1, covered);
            var t := Resolve(mc[j], pdgs, xs, ys, zs, zero);
            if t.Some? && rest.Ok? {
              LinksResolvePrepend(Link(t.value, mc[j]), rest.value, mc, pdgs, xs, ys, zs, zero);
            }
          }
        }
      }
    }
  }

  /** As written, a walk over digits none of which is covered yet stops at
      the first: KeyError when its sensor is not a key, TypeError from the
      call otherwise. */
  lemma AsWrittenWalk<M>(g: Matrix, ds: seq<CFD.Digit>, mc: seq<int>, pdgs: seq<int>, xs: seq<M>, ys: seq<M>, zs: seq<M>,
                         zero: M, known: map<int, set<(int, int)>>)
    requires |ds| == |mc| && Ladder(g)
    requires forall id :: id in known ==> known[id] == {}
    ensures DigitWalk(AsWritten, g, ds, mc, pdgs, xs, ys, zs, zero, 0, known) ==
      if ds == [] then Ok([]) else Err(if ds[0].sensor in known then TypeError else KeyError)
  {
  }

  /** As written, an event with digits never yields a row. An event passes
      only when its checks pass and it has no digits. */
  lemma AsWrittenEvent<M>(input: DigitTruthInput<M>, zero: M, i: nat)
    requires i < |input.digits|
    ensures DigitEvent(AsWritten, input, zero, i).Ok? <==> Prelude(input, i) && input.digits[i] == []
    ensures DigitEvent(AsWritten, input, zero, i).Ok? ==> DigitEvent(AsWritten, input, zero, i).value == []
    ensures Prelude(input, i) && input.digits[i] != [] ==>
      DigitEvent(AsWritten, input, zero, i) == Err(if IsPanel(input.digits[i][0].sensor) then TypeError else KeyError)
  {
    DigitEventWalks(AsWritten, input, zero, i);
    if Prelude(input, i) {
      var none := NoneKnown();
      AsWrittenWalk(FlatPlane(input.digits[i]), input.digits[i], EventLinks(input, i),
                    input.pdg[i], input.momentumX[i], input.momentumY[i], input.momentumZ[i], zero, none);
    }
  }

  /** As written, `_process` succeeds only on input without any digit, and
      then returns no rows. */
  lemma AsWrittenYieldsNothing<M>(input: DigitTruthInput<M>, zero: M)
    ensures DigitTruthSpec(AsWritten, input, zero).Ok? <==>
      forall i :: 0 <= i < |input.digits| ==> Prelude(input, i) && input.digits[i] == []
    ensures DigitTruthSpec(AsWritten, input, zero).Ok? ==> |DigitTruthSpec(AsWritten, input, zero).value.clsNumber| == 0
  {
    var n := |input.digits|;
    var outcome := DigitOutcomes(AsWritten, input, zero);
    CollectErrIff(outcome, n);
    forall i | 0 <= i < n ensures outcome(i).Ok? <==> Prelude(input, i) && input.digits[i] == []
      ensures outcome(i).Ok? ==> |outcome(i).value| <= 0
    {
      AsWrittenEvent(input, zero, i);
    }
    CollectBounded(outcome, Repeat(0, n), n);
    ZeroSum(n);
  }

  lemma {:induction false} ZeroSum(n: nat)
    ensures Sum(Repeat(0, n)[..n]) == 0
    decreases n
  {
    if n > 0 {
      ZeroSum(n - 1);
      assert Repeat(0, n)[..n][..n - 1] == Repeat(0, n - 1)[..n - 1];
    }
  }

  /** With the intended call, the first digit of an event always yields a
      row: nothing is covered before it, and its row holds the truth of its
      own link. */
  lemma CorrectedKeepsFirstDigit<M>(g: Matrix, ds: seq<CFD.Digit>, mc: seq<int>, pdgs: seq<int>, xs: seq<M>, ys: seq<M>, zs: seq<M>, zero: M)
    requires 0 < |ds| == |mc| && Ladder(g)
    requires DigitWalk(Corrected, g, ds, mc, pdgs, xs, ys, zs, zero, 0, NoneKnown()).Ok?
    ensures var rows := DigitWalk(Corrected, g, ds, mc, pdgs, xs, ys, zs, zero, 0, NoneKnown()).value;
      |rows| >= 1 && rows[0].clsNumber == mc[0] && Resolve(mc[0], pdgs, xs, ys, zs, zero) == Some(rows[0].truth)
  {
    var none := NoneKnown();
  }

  /** With the intended call the walk never raises TypeError, and it raises
      IndexError only for a link that does not resolve. */
  lemma {:induction false} CorrectedWalkErrors<M>(g: Matrix, ds: seq<CFD.Digit>, mc: seq<int>, pdgs: seq<int>,
                                                 xs: seq<M>, ys: seq<M>, zs: seq<M>, zero: M, j: nat, known: map<int, set<(int, int)>>)
    requires j <= |ds| == |mc| && Ladder(g)
    ensures var r := DigitWalk(Corrected, g, ds, mc, pdgs, xs, ys, zs, zero, j, known);
      r.Err? ==> (r.error != TypeError &&
        (r.error == IndexError ==> exists k :: j <= k < |ds| && Resolve(mc[k], pdgs, xs, ys, zs, zero).None?))
    decreases |ds| - j
  {
    if j < |ds| && ds[j].sensor in known {
      var id := ds[j].sensor;
      if (ds[j].u, ds[j].v) in known[id] {
        CorrectedWalkErrors(g, ds, mc, pdgs, xs, ys, zs, zero, j + 1, known);
      } else {
        var e := ExtractCall(Corrected, g, ds[j].u, ds[j].v);
        if e.Ok? {
          var covered := known[id := known[id] + L.Pairs(e.value.globalU, e.value.globalV)];
          CorrectedWalkErrors(g, ds, mc, pdgs, xs, ys, zs, zero, j + 1, covered);
        }
      }
    }
  }

  /** With the intended call, an event whose digits all sit on panels and
      whose links all resolve raises neither KeyError nor TypeError nor
      IndexError in its walk; what remains are the window's own errors. */
  lemma CorrectedEventErrors<M>(input: DigitTruthInput<M>, zero: M, i: nat)
    requires i < |input.digits| && Prelude(input, i)
    requires forall k :: 0 <= k < |input.digits[i]| ==> IsPanel(input.digits[i][k].sensor)
    requires forall k :: 0 <= k < |input.digits[i]| ==>
      Resolve(EventLinks(input, i)[k], input.pdg[i], input.momentumX[i], input.momentumY[i], input.momentumZ[i], zero).Some?
    ensures DigitEvent(Corrected, input, zero, i).Err? ==>
      DigitEvent(Corrected, input, zero, i).error == AssertionError || DigitEvent(Corrected, input, zero, i).error == ValueError
  {
    var ds := input.digits[i];
    var g := FlatPlane(ds);
    var mc := EventLinks(input, i);
    var none := NoneKnown();
    DigitEventWalks(Corrected, input, zero, i);
    DigitWalkFacts(Corrected, g, ds, mc, input.pdg[i], input.momentumX[i], input.momentumY[i], input.momentumZ[i], zero, 0, none);
    CorrectedWalkErrors(g, ds, mc, input.pdg[i], input.momentumX[i], input.momentumY[i], input.momentumZ[i], zero, 0, none);
    DigitWalkErrorKinds(Corrected, g, ds, mc, input.pdg[i], input.momentumX[i], input.momentumY[i], input.momentumZ[i], zero, 0, none);
  }

  /** A walk raises only KeyError, IndexError or an error of the call. */
  lemma {:induction false} DigitWalkErrorKinds<M>(call: Call, g: Matrix, ds: seq<CFD.Digit>, mc: seq<int>, pdgs: seq<int>,
                                                 xs: seq<M>, ys: seq<M>, zs: seq<M>, zero: M, j: nat, known: map<int, set<(int, int)>>)
    requires j <= |ds| == |mc| && Ladder(g)
    ensures var r := DigitWalk(call, g, ds, mc, pdgs, xs, ys, zs, zero, j, known);
      r.Err? ==> (r.error == KeyError || r.error == IndexError || exists k :: j <= k < |ds| && ExtractCall(call, g, ds[k].u, ds[k].v) == Err(r.error))
    decreases |ds| - j
  {
    if j < |ds| && ds[j].sensor in known {
      var id := ds[j].sensor;
      if (ds[j].u, ds[j].v) in known[id] {
        DigitWalkErrorKinds(call, g, ds, mc, pdgs, xs, ys, zs, zero, j + 1, known);
      } else {
        var e := ExtractCall(call, g, ds[j].u, ds[j].v);
        if e.Ok? {
          var covered := known[id := known[id] + L.Pairs(e.value.globalU, e.value.globalV)];
          DigitWalkErrorKinds(call, g, ds, mc, pdgs, xs, ys, zs, zero, j + 1, covered);
        }
      }
    }
  }

  /** Whatever the call, an event yields at most one row per digit. */
  lemma DigitEventBounded<M>(call: Call, input: DigitTruthInput<M>, zero: M, i: nat)
    requires i < |input.digits|
    ensures DigitEvent(call, input, zero, i).Ok? ==> |DigitEvent(call, input, zero, i).value| <= |input.digits[i]|
  {
    DigitEventWalks(call, input, zero, i);
    if Prelude(input, i) {
      var none := NoneKnown();
      DigitWalkFacts(call, FlatPlane(input.digits[i]), input.digits[i], EventLinks(input, i),
                     input.pdg[i], input.momentumX[i], input.momentumY[i], input.momentumZ[i], zero, 0, none);
    }
  }

  /** `_process` returns well-shaped columns with at most one row per digit
      of the input. */
  lemma DigitTruthBounded<M>(call: Call, input: DigitTruthInput<M>, zero: M)
    ensures DigitTruthSpec(call, input, zero).Ok? ==>
      WellShaped(DigitTruthSpec(call, input, zero).value) &&
      |DigitTruthSpec(call, input, zero).value.clsNumber| <= Sum(Lengths(input.digits))
  {
    var n := |input.digits|;
    var outcome := DigitOutcomes(call, input, zero);
    forall i | 0 <= i < n && outcome(i).Ok? ensures |outcome(i).value| <= Lengths(input.digits)[i] {
      DigitEventBounded(call, input, zero, i);
    }
    CollectBounded(outcome, Lengths(input.digits), n);
    assert Lengths(input.digits)[..n] == Lengths(input.digits);
  }

  /** The digit loop of one event: a digit on a sensor that is not a key of
      `knownPixels` raises KeyError, a covered one is skipped, any other
      has its window cut, its non-zero pixels recorded for the sensor and
      the truth of its link appended. */
  method WalkDigits<M>(call: Call, ladder: array2<int>, ds: seq<CFD.Digit>, mc: seq<int>,
                       pdgs: seq<int>, xs: seq<M>, ys: seq<M>, zs: seq<M>, zero: M)
    returns (r: Result<seq<Link<M>>>)
    requires |mc| == |ds| && InLadder(ds) && Scattered(ladder, ds)
    ensures r == DigitWalk(call, FlatPlane(ds), ds, mc, pdgs, xs, ys, zs, zero, 0, NoneKnown())
  {
    var g := Read(ladder);
    ReadMatches(ladder, ds);
    var known := NoneKnown();
    var out: seq<Link<M>> := [];
    PrependNothing(DigitWalk(call, g, ds, mc, pdgs, xs, ys, zs, zero, 0, known));
    for j := 0 to |ds|
      invariant Prepend(out, DigitWalk(call, g, ds, mc, pdgs, xs, ys, zs, zero, j, known)) ==
        DigitWalk(call, g, ds, mc, pdgs, xs, ys, zs, zero, 0, NoneKnown())
    {
      var x, y, id, relation := ds[j].u, ds[j].v, ds[j].sensor, mc[j];
      if id !in known {
        return Err(KeyError);
      }
      if (x, y) in known[id] {
        continue;
      }
      var e := ExtractCall(call, g, x, y);
      if e.Err? {
        return Err(e.error);
      }
      known := known[id := known[id] + L.Pairs(e.value.globalU, e.value.globalV)];
      var t := Resolve(relation, pdgs, xs, ys, zs, zero);
      if t.None? {
        return Err(IndexError);
      }
      PrependTwice(out, [Link(t.value, relation)], DigitWalk(call, g, ds, mc, pdgs, xs, ys, zs, zero, j + 1, known));
      out := out + [Link(t.value, relation)];
    }
    assert out + [] == out;
    return Ok(out);
  }

  /** The body of `_process` for event `i`. */
  method DigitEventRows<M>(call: Call, input: DigitTruthInput<M>, zero: M, i: nat) returns (r: Result<seq<Link<M>>>)
    requires i < |input.digits|
    ensures r == DigitEvent(call, input, zero, i)
  {
    var ds := input.digits[i];
    var ladder := ScatterLadder(ds);
    if ladder.None? || i >= |input.fromDigits| || i >= |input.toDigits| {
      return Err(IndexError);
    }
    var mcDigits := FillMCList(input.fromDigits[i], input.toDigits[i], |ds|);
    if mcDigits.Err? {
      return Err(mcDigits.error);
    }
    if i >= |input.pdg| || i >= |input.momentumX| || i >= |input.momentumY| || i >= |input.momentumZ| {
      return Err(IndexError);
    }
    if |mcDigits.value| != |ds| {
      return Err(AssertionError);
    }
    r := WalkDigits(call, ladder.value, ds, mcDigits.value, input.pdg[i], input.momentumX[i], input.momentumY[i], input.momentumZ[i], zero);
  }

  /** One step of `_process`: a successful event extends the collected
      links, a failing one is the outcome of the whole run. */
  lemma DigitStep<M>(call: Call, input: DigitTruthInput<M>, zero: M, i: nat,
                     links: seq<Link<M>>, now: Result<seq<Link<M>>>)
    requires i < |input.digits| && Collect(DigitOutcomes(call, input, zero), i) == Ok(links)
    requires now == DigitEvent(call, input, zero, i)
    ensures now.Ok? ==> Collect(DigitOutcomes(call, input, zero), i + 1) == Ok(links + now.value)
    ensures now.Err? ==> DigitTruthSpec(call, input, zero) == Err(now.error)
  {
    var outcome := DigitOutcomes(call, input, zero);
    assert outcome(i) == now;
    CollectStep(outcome, i, |input.digits|, links);
  }

  /** `MCtoDigits._process`: the events in order, their rows appended to
      the five lists. */
  method DigitTruth<M>(call: Call, input: DigitTruthInput<M>, zero: M) returns (r: Result<MCTable<M>>)
    ensures r == DigitTruthSpec(call, input, zero)
  {
    var links: seq<Link<M>> := [];
    for i := 0 to |input.digits|
      invariant Collect(DigitOutcomes(call, input, zero), i) == Ok(links)
    {
      var now := DigitEventRows(call, input, zero, i);
      DigitStep(call, input, zero, i, links, now);
      if now.Err? {
        return Err(now.error);
      }
      links := links + now.value;
    }
    r := Ok(Tabulate(links));
    assert r == DigitTruthSpec(call, input, zero);
  }
}
