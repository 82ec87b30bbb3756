/** The user-facing loader (build/lib/rootable/rootable.py): `open` parses
    the file arguments and opens one event tree per argument, and each
    `get*` method forwards to the PXD detector once per opened tree, guarded
    by seven load flags. The PXD's own effect on its columns is the Pxd
    module's business; here every forwarded call is recorded in a log, and
    the PXD's answer (success or the exception it raised) is a parameter
    `respond` that may depend on every call made before. */
module Rootable {
  import opened Common
  import opened FancyDict
  import opened Pxd

  // ---------------------------------------------------------------------
  // File arguments (lines 103-107)

  /** The first position of `c` in `s`, if any. */
  function Find(s: string, c: char): (r: Option<nat>)
    ensures r.None? <==> c !in s
    ensures r.Some? ==> r.value < |s| && s[r.value] == c && c !in s[..r.value]
  {
    if s == [] then None
    else if s[0] == c then Some(0)
    else match Find(s[1..], c)
      case None => None
      case Some(i) => assert s[1..][..i] == s[1..i + 1]; Some(i + 1)
  }

  predicate EndsWith(s: string, suffix: string)
  {
    |suffix| <= |s| && s[|s| - |suffix|..] == suffix
  }

  /** `str.partition(':')`: the text before the first colon and the text
      after it; the whole string and nothing when there is no colon. */
  function Partition(s: string): (r: (string, string))
  {
    match Find(s, ':')
    case None => (s, "")
    case Some(i) => (s[..i], s[i + 1..])
  }

  /** A file argument `file[:tree]` as the file to open and the tree to
      read: ".root" is added when the file does not end with it, and the
      tree defaults to "tree". */
  function SplitSpec(arg: string): (r: (string, string))
  {
    var (file, tree) := Partition(arg);
    (if EndsWith(file, ".root") then file else file + ".root", if tree == "" then "tree" else tree)
  }

  /** The partition cuts at the first colon and loses nothing else. */
  lemma PartitionSplits(s: string)
    ensures var before, after := Partition(s).0, Partition(s).1;
      && ':' !in before
      && (':' in s ==> s == before + ":" + after)
      && (':' !in s ==> before == s && after == "")
  {
    match Find(s, ':')
    case None =>
    case Some(i) =>
      assert s == s[..i] + [s[i]] + s[i + 1..];
  }

  /** Whatever the argument, the file has no colon and ends in ".root", and
      the tree name is not empty. */
  lemma SplitSpecShape(arg: string)
    ensures var file, tree := SplitSpec(arg).0, SplitSpec(arg).1;
      ':' !in file && EndsWith(file, ".root") && tree != ""
  {
    PartitionSplits(arg);
    var (f, _) := Partition(arg);
    if !EndsWith(f, ".root") {
      assert (f + ".root")[|f + ".root"| - 5..] == ".root";
      assert forall x :: x in f + ".root" ==> x in f || x in ".root";
    }
  }

  /** `Find` returns the first occurrence. */
  lemma FindFirst(s: string, c: char, i: nat)
    requires i < |s| && s[i] == c && c !in s[..i]
    ensures Find(s, c) == Some(i)
  {
    assert c in s;
  }

  /** The round trip: a file that already ends in ".root", followed by a
      colon and a tree name, is split back into exactly those two parts;
      without the colon the tree is "tree". */
  lemma SplitSpecRoundTrip(file: string, tree: string)
    requires ':' !in file && EndsWith(file, ".root")
    ensures tree != "" ==> SplitSpec(file + ":" + tree) == (file, tree)
    ensures SplitSpec(file) == (file, "tree")
  {
    var arg := file + ":" + tree;
    PartitionSplits(file);
    var i := |file|;
    assert arg[i] == ':' && arg[..i] == file && arg[i + 1..] == tree;
    FindFirst(arg, ':', i);
  }

  /** A file without the suffix gets it appended, once. */
  lemma SplitSpecAddsSuffix(file: string)
    requires ':' !in file && !EndsWith(file, ".root")
    ensures SplitSpec(file) == (file + ".root", "tree")
  {
    PartitionSplits(file);
  }

  // ---------------------------------------------------------------------
  // Calls forwarded to the PXD object

  /** An event tree as `uproot.open("file:tree")` returns it, named by the
      two parts it was opened with. The trees before the first `open`
      are `None` (line 21). */
  datatype TreeRef = TreeRef(file: string, tree: string)

  /** A call on the PXD object, with the tree (`None` for
      `eventTree=None`), the file name, the matrix size and the
      includeUnselected flag it passes. */
  datatype Call =
    | Clusters(tree: Option<TreeRef>, fileName: string, inc: bool)
    | Digits(tree: Option<TreeRef>, inc: bool)
    | Matrices(tree: Option<TreeRef>, size: (int, int), inc: bool)
    | Coordinates(tree: Option<TreeRef>)
    | Layers(tree: Option<TreeRef>)
    | MCData(tree: Option<TreeRef>, inc: bool)

  /** The PXD's answer to a call, given every call made before it. */
  type Respond = (seq<Call>, Call) -> Result<()>

  /** The log after a run of calls, and whether one of them raised. */
  datatype Delivery = Delivery(log: seq<Call>, outcome: Result<()>)

  /** The calls made in order; the first that raises ends the run and
      raises on. */
  function Sent(respond: Respond, log: seq<Call>, calls: seq<Call>): (r: Delivery)
    decreases |calls|
  {
    if calls == [] then Delivery(log, Ok(()))
    else match respond(log, calls[0])
      case Err(e) => Delivery(log + [calls[0]], Err(e))
      case Ok(_) => Sent(respond, log + [calls[0]], calls[1..])
  }

  /** Every one of the first `n` calls returns, each given the calls made
      before it. */
  predicate Answered(respond: Respond, log: seq<Call>, calls: seq<Call>, n: nat)
    requires n <= |calls|
  {
    forall i :: 0 <= i < n ==> respond(log + calls[..i], calls[i]).Ok?
  }

  /** The first `n + 1` calls return when the first one does and the
      next `n` return after it. */
  lemma AnsweredCons(respond: Respond, log: seq<Call>, calls: seq<Call>, n: nat)
    requires n < |calls|
    ensures Answered(respond, log, calls, n + 1) <==>
      respond(log, calls[0]).Ok? && Answered(respond, log + [calls[0]], calls[1..], n)
  {
    assert log + calls[..0] == log;
    forall i | 0 <= i < n
      ensures log + calls[..i + 1] == log + [calls[0]] + calls[1..][..i] && calls[i + 1] == calls[1..][i]
    {
      assert calls[..i + 1] == [calls[0]] + calls[1..][..i];
    }
    if respond(log, calls[0]).Ok? && Answered(respond, log + [calls[0]], calls[1..], n) {
      forall i | 0 <= i < n + 1 ensures respond(log + calls[..i], calls[i]).Ok? {
        if i > 0 {
          assert respond(log + [calls[0]] + calls[1..][..i - 1], calls[1..][i - 1]).Ok?;
        }
      }
    }
  }

  /** A run makes every call, in order, exactly when each of them
      returns. */
  lemma {:induction false} SentAll(respond: Respond, log: seq<Call>, calls: seq<Call>)
    ensures Sent(respond, log, calls).outcome.Ok? <==> Answered(respond, log, calls, |calls|)
    ensures Sent(respond, log, calls).outcome.Ok? ==> Sent(respond, log, calls).log == log + calls
    decreases |calls|
  {
    if calls != [] {
      var c, rest := calls[0], calls[1..];
      assert calls == [c] + rest;
      AnsweredCons(respond, log, calls, |rest|);
      if respond(log, c).Ok? {
        SentAll(respond, log + [c], rest);
        AppendAssoc(log, [c], rest);
      }
    }
  }

  /** A run that stopped at call `k`: it made the calls up to and including
      that one, all before it returned, and it raised what that one
      raised. */
  predicate StoppedAt(respond: Respond, log: seq<Call>, calls: seq<Call>, r: Delivery, k: nat)
  {
    && k < |calls| && r.log == log + calls[..k + 1]
    && r.outcome == respond(log + calls[..k], calls[k])
    && Answered(respond, log, calls, k)
  }

  /** Stopping at call `k` of the rest is stopping at call `k + 1`, when
      the first call returned. */
  lemma StoppedAtCons(respond: Respond, log: seq<Call>, calls: seq<Call>, r: Delivery, k: nat)
    requires calls != [] && respond(log, calls[0]).Ok?
    requires StoppedAt(respond, log + [calls[0]], calls[1..], r, k)
    ensures StoppedAt(respond, log, calls, r, k + 1)
  {
    var c, rest := calls[0], calls[1..];
    AnsweredCons(respond, log, calls, k);
    assert calls[..k + 2] == [c] + rest[..k + 1] && calls[..k + 1] == [c] + rest[..k];
    AppendAssoc(log, [c], rest[..k + 1]);
    AppendAssoc(log, [c], rest[..k]);
    assert rest[k] == calls[k + 1];
  }

  /** Otherwise the run makes the calls up to the first that raises, and
      raises its exception. */
  lemma {:induction false} SentStops(respond: Respond, log: seq<Call>, calls: seq<Call>)
    ensures Sent(respond, log, calls).outcome.Err? ==> exists k :: StoppedAt(respond, log, calls, Sent(respond, log, calls), k)
    decreases |calls|
  {
    if calls != [] {
      var c, rest := calls[0], calls[1..];
      var r := Sent(respond, log, calls);
      if respond(log, c).Ok? {
        SentStops(respond, log + [c], rest);
        assert r == Sent(respond, log + [c], rest);
        if r.outcome.Err? {
          var k :| StoppedAt(respond, log + [c], rest, r, k);
          StoppedAtCons(respond, log, calls, r, k);
        }
      } else {
        assert calls[..1] == [c] && log + calls[..0] == log;
        assert StoppedAt(respond, log, calls, r, 0);
      }
    }
  }

  /** `zip(self.eventTrees, self.fileNames)`: one getClusters call per pair,
      as many as the shorter list has entries. */
  function ClusterCalls(trees: seq<Option<TreeRef>>, names: seq<string>, inc: bool): (r: seq<Call>)
  {
    seq(if |trees| <= |names| then |trees| else |names|, i requires 0 <= i < |trees| && i < |names| => Clusters(trees[i], names[i], inc))
  }

  /** One call per tree: `call` with its tree replaced by each in turn. */
  function PerTree(trees: seq<Option<TreeRef>>, call: Call): (r: seq<Call>)
  {
    seq(|trees|, i requires 0 <= i < |trees| => call.(tree := trees[i]))
  }

  /** `zip` pairs the i-th tree with the i-th name and stops at the shorter
      list: after an `open` that failed half-way, the last name recorded
      has no tree and gets no call. */
  lemma ClusterCallsZip(trees: seq<Option<TreeRef>>, names: seq<string>, inc: bool)
    ensures var r := ClusterCalls(trees, names, inc);
      && |r| <= |trees| && |r| <= |names| && (|r| == |trees| || |r| == |names|)
      && forall i :: 0 <= i < |r| ==> r[i] == Clusters(trees[i], names[i], inc)
  {
  }

  // ---------------------------------------------------------------------
  // The loader's state (lines 17-30, 96-100)

  /** The fields of a Rootable: the event trees, whether `open` has set the
      attributes it creates (fileNames, includeUnselected, multiplyFiles),
      their values, the seven flags and the calls made on the PXD. */
  datatype Session = Session(
    eventTrees: seq<Option<TreeRef>>,
    isOpen: bool,
    fileNames: seq<string>,
    includeUnselected: bool,
    multiplyFiles: bool,
    got: Flags,
    log: seq<Call>)

  /** The result of the `open` loop: the trees opened and names recorded so
      far, and whether an open raised. */
  datatype Opening = Opening(trees: seq<Option<TreeRef>>, names: seq<string>, outcome: Result<()>)

  /** Opening the tree a file argument names; FileNotFoundError is raised
      again as such and every other error goes through, so the error kind is
      what the opener raised. */
  function OpenOne(opens: (string, string) -> Result<()>, arg: string): Result<()>
  {
    var (file, tree) := SplitSpec(arg);
    opens(file, tree)
  }

  function TreeOf(arg: string): Option<TreeRef>
  {
    var (file, tree) := SplitSpec(arg);
    Some(TreeRef(file, tree))
  }

  /** The loop of lines 102-124 over the remaining arguments: the base name
      is recorded BEFORE the tree is opened, so an argument that fails to
      open still has its name recorded. */
  function OpenFrom(opens: (string, string) -> Result<()>, baseName: string -> string,
                    args: seq<string>, trees: seq<Option<TreeRef>>, names: seq<string>): (r: Opening)
    decreases |args|
  {
    if args == [] then Opening(trees, names, Ok(()))
    else
      var names1 := names + [baseName(args[0])];
      match OpenOne(opens, args[0])
      case Err(e) => Opening(trees, names1, Err(e))
      case Ok(_) => OpenFrom(opens, baseName, args[1..], trees + [TreeOf(args[0])], names1)
  }

  /** The names of the arguments, and their trees, in argument order. */
  function Names(baseName: string -> string, args: seq<string>): (r: seq<string>)
  {
    seq(|args|, i requires 0 <= i < |args| => baseName(args[i]))
  }

  function Trees(args: seq<string>): (r: seq<Option<TreeRef>>)
  {
    seq(|args|, i requires 0 <= i < |args| => TreeOf(args[i]))
  }

  lemma NamesTreesSplit(baseName: string -> string, args: seq<string>)
    requires args != []
    ensures Names(baseName, args) == [baseName(args[0])] + Names(baseName, args[1..])
    ensures Trees(args) == [TreeOf(args[0])] + Trees(args[1..])
  {
  }

  /** Each of the first `n` arguments opens without raising. */
  predicate AllOpen(opens: (string, string) -> Result<()>, args: seq<string>, n: nat)
    requires n <= |args|
  {
    forall i :: 0 <= i < n ==> OpenOne(opens, args[i]).Ok?
  }

  lemma AllOpenCons(opens: (string, string) -> Result<()>, args: seq<string>, n: nat)
    requires n < |args|
    ensures AllOpen(opens, args, n + 1) <==> OpenOne(opens, args[0]).Ok? && AllOpen(opens, args[1..], n)
  {
    if OpenOne(opens, args[0]).Ok? && AllOpen(opens, args[1..], n) {
      forall i | 0 <= i < n + 1 ensures OpenOne(opens, args[i]).Ok? {
        if i > 0 {
          assert args[i] == args[1..][i - 1];
        }
      }
    }
  }

  /** `open` opens every argument's tree exactly when each opener call
      returns, and then records one name and one tree per argument, in
      order. */
  lemma {:induction false} OpenFromAll(opens: (string, string) -> Result<()>, baseName: string -> string,
                                       args: seq<string>, trees: seq<Option<TreeRef>>, names: seq<string>)
    ensures OpenFrom(opens, baseName, args, trees, names).outcome.Ok? <==> AllOpen(opens, args, |args|)
    ensures var r := OpenFrom(opens, baseName, args, trees, names);
      r.outcome.Ok? ==> r.trees == trees + Trees(args) && r.names == names + Names(baseName, args)
    decreases |args|
  {
    if args != [] {
      var a, rest := args[0], args[1..];
      NamesTreesSplit(baseName, args);
      AllOpenCons(opens, args, |rest|);
      if OpenOne(opens, a).Ok? {
        OpenFromAll(opens, baseName, rest, trees + [TreeOf(a)], names + [baseName(a)]);
        AppendAssoc(trees, [TreeOf(a)], Trees(rest));
        AppendAssoc(names, [baseName(a)], Names(baseName, rest));
      }
    }
  }

  /** An `open` loop that stopped at argument `k`: all arguments before it
      opened, its own opener call raised, its name is recorded and its tree
      is not. */
  predicate OpenStoppedAt(opens: (string, string) -> Result<()>, baseName: string -> string,
                          args: seq<string>, trees: seq<Option<TreeRef>>, names: seq<string>, r: Opening, k: nat)
  {
    && k < |args| && r.outcome == OpenOne(opens, args[k])
    && AllOpen(opens, args, k)
    && r.trees == trees + Trees(args[..k]) && r.names == names + Names(baseName, args[..k + 1])
  }

  lemma OpenStoppedAtCons(opens: (string, string) -> Result<()>, baseName: string -> string,
                          args: seq<string>, trees: seq<Option<TreeRef>>, names: seq<string>, r: Opening, k: nat)
    requires args != [] && OpenOne(opens, args[0]).Ok?
    requires OpenStoppedAt(opens, baseName, args[1..], trees + [TreeOf(args[0])], names + [baseName(args[0])], r, k)
    ensures OpenStoppedAt(opens, baseName, args, trees, names, r, k + 1)
  {
    var a, rest := args[0], args[1..];
    AllOpenCons(opens, args, k);
    assert args[..k + 1][1..] == rest[..k] && args[..k + 2][1..] == rest[..k + 1];
    NamesTreesSplit(baseName, args[..k + 1]);
    NamesTreesSplit(baseName, args[..k + 2]);
    AppendAssoc(trees, [TreeOf(a)], Trees(rest[..k]));
    AppendAssoc(names, [baseName(a)], Names(baseName, rest[..k + 1]));
    assert args[k + 1] == rest[k];
  }

  /** Otherwise `open` stops at the first argument that fails, with that
      argument's name recorded but not its tree, and raises its error. */
  lemma {:induction false} OpenFromStops(opens: (string, string) -> Result<()>, baseName: string -> string,
                                         args: seq<string>, trees: seq<Option<TreeRef>>, names: seq<string>)
    ensures var r := OpenFrom(opens, baseName, args, trees, names);
      r.outcome.Err? ==> exists k :: OpenStoppedAt(opens, baseName, args, trees, names, r, k)
    decreases |args|
  {
    if args != [] {
      var a, rest := args[0], args[1..];
      var r := OpenFrom(opens, baseName, args, trees, names);
      if OpenOne(opens, a).Ok? {
        var trees1, names1 := trees + [TreeOf(a)], names + [baseName(a)];
        OpenFromStops(opens, baseName, rest, trees1, names1);
        assert r == OpenFrom(opens, baseName, rest, trees1, names1);
        if r.outcome.Err? {
          var k :| OpenStoppedAt(opens, baseName, rest, trees1, names1, r, k);
          OpenStoppedAtCons(opens, baseName, args, trees, names, r, k);
        }
      } else {
        assert args[..0] == [] && args[..1] == [a];
        assert Trees([]) == [] && Names(baseName, [a]) == [baseName(a)];
        assert OpenStoppedAt(opens, baseName, args, trees, names, r, 0);
      }
    }
  }

  /** `open` (lines 92-124): the tree and name lists start afresh, the
      options are set before any file is opened, and the flags and the
      PXD's contents are NOT reset. */
  function AfterOpen(s: Session, args: seq<string>, inc: bool, opens: (string, string) -> Result<()>, baseName: string -> string): (r: (Session, Result<()>))
  {
    var o := OpenFrom(opens, baseName, args, [], []);
    (s.(eventTrees := o.trees, isOpen := true, fileNames := o.names, includeUnselected := inc, multiplyFiles := |args| > 1), o.outcome)
  }

  /** `open` sets `multiplyFiles` exactly when more than one file is given,
      and keeps the load flags and the calls made. */
  lemma OpenOptions(s: Session, args: seq<string>, inc: bool, opens: (string, string) -> Result<()>, baseName: string -> string)
    ensures var t := AfterOpen(s, args, inc, opens, baseName).0;
      && t.isOpen && t.includeUnselected == inc
      && (t.multiplyFiles <==> |args| > 1)
      && t.got == s.got && t.log == s.log
  {
  }

  /** A successful `open` holds one tree and one name per argument. */
  lemma OpenRecords(s: Session, args: seq<string>, inc: bool, opens: (string, string) -> Result<()>, baseName: string -> string)
    ensures var t, r := AfterOpen(s, args, inc, opens, baseName).0, AfterOpen(s, args, inc, opens, baseName).1;
      && (r.Ok? <==> forall i :: 0 <= i < |args| ==> OpenOne(opens, args[i]).Ok?)
      && (r.Ok? ==> && |t.eventTrees| == |t.fileNames| == |args|
                    && forall i :: 0 <= i < |args| ==>
                         t.fileNames[i] == baseName(args[i]) && t.eventTrees[i] == Some(TreeRef(SplitSpec(args[i]).0, SplitSpec(args[i]).1)))
      && (r.Err? ==> |t.fileNames| == |t.eventTrees| + 1 <= |args|)
  {
    OpenFromAll(opens, baseName, args, [], []);
    OpenFromStops(opens, baseName, args, [], []);
  }

  // ---------------------------------------------------------------------
  // The loaders (lines 125-186)

  /** The session after a run of calls; the flags become `loaded` only
      when no call raised. */
  function Ran(s: Session, respond: Respond, calls: seq<Call>, loaded: Flags): (r: (Session, Result<()>))
  {
    var d := Sent(respond, s.log, calls);
    (s.(log := d.log, got := if d.outcome.Ok? then loaded else s.got), d.outcome)
  }

  /** `getClusters` (lines 125-131): guarded by its flag; before `open`
      there are no file names (AttributeError). */
  function AfterClusters(s: Session, respond: Respond): (r: (Session, Result<()>))
  {
    if s.got.clusters then (s, Ok(()))
    else if !s.isOpen then (s, Err(AttributeError))
    else Ran(s, respond, ClusterCalls(s.eventTrees, s.fileNames, s.includeUnselected), s.got.(clusters := true))
  }

  /** `getDigits` (lines 133-139): guarded by its flag; the includeUnselected
      argument does not exist before `open` (AttributeError at the first
      call). */
  function AfterDigits(s: Session, respond: Respond): (r: (Session, Result<()>))
  {
    var calls := PerTree(s.eventTrees, Digits(None, s.includeUnselected));
    if s.got.digits then (s, Ok(()))
    else if !s.isOpen && calls != [] then (s, Err(AttributeError))
    else Ran(s, respond, calls, s.got.(digits := true))
  }

  /** The `matrixSize` `getMatrices` uses when it is given none (line 141). */
  const DefaultMatrixSize: (int, int) := (9, 9)

  /** `getMatrices(matrixSize)` (lines 141-149): only warns when already
      loaded; once the digits are in, one call without a tree; every call
      passes `matrixSize` on. */
  function AfterMatrices(s: Session, respond: Respond, size: (int, int)): (r: (Session, Result<()>))
  {
    var calls := if s.got.digits then [Matrices(None, size, s.includeUnselected)]
                 else PerTree(s.eventTrees, Matrices(None, size, s.includeUnselected));
    if !s.isOpen && calls != [] then (s, Err(AttributeError))
    else Ran(s, respond, calls, s.got.(matrices := true))
  }

  /** `getCoordinates` and `getLayers` (lines 151-158, 169-176): only warn
      when already loaded; once the clusters are in, one call without a
      tree. They read no attribute `open` creates. */
  function AfterCoordinates(s: Session, respond: Respond): (r: (Session, Result<()>))
  {
    var calls := if s.got.clusters then [Coordinates(None)] else PerTree(s.eventTrees, Coordinates(None));
    Ran(s, respond, calls, s.got.(coordinates := true))
  }

  function AfterLayers(s: Session, respond: Respond): (r: (Session, Result<()>))
  {
    var calls := if s.got.clusters then [Layers(None)] else PerTree(s.eventTrees, Layers(None));
    Ran(s, respond, calls, s.got.(layers := true))
  }

  /** `getSphericals` (lines 160-167) calls a method the PXD does not have:
      AttributeError as soon as it would make a call. */
  function AfterSphericals(s: Session): (r: (Session, Result<()>))
  {
    if s.got.clusters || s.eventTrees != [] then (s, Err(AttributeError))
    else (s.(got := s.got.(sphericals := true)), Ok(()))
  }

  /** `getMCData` (lines 178-182): only warns when already loaded. */
  function AfterMCData(s: Session, respond: Respond): (r: (Session, Result<()>))
  {
    var calls := PerTree(s.eventTrees, MCData(None, s.includeUnselected));
    if !s.isOpen && calls != [] then (s, Err(AttributeError))
    else Ran(s, respond, calls, s.got.(mcData := true))
  }

  /** What a run does to the session: the calls are appended to the log as
      `Sent` makes them, the flag is set exactly when none raised, and
      nothing else changes. */
  lemma RanSpec(s: Session, respond: Respond, calls: seq<Call>, loaded: Flags)
    ensures var t, r := Ran(s, respond, calls, loaded).0, Ran(s, respond, calls, loaded).1;
      && t.eventTrees == s.eventTrees && t.isOpen == s.isOpen && t.fileNames == s.fileNames
      && t.includeUnselected == s.includeUnselected && t.multiplyFiles == s.multiplyFiles
      && (r.Ok? ==> t.log == s.log + calls && t.got == loaded)
      && (r.Err? ==> t.got == s.got && |s.log| < |t.log| <= |s.log| + |calls|)
  {
    SentAll(respond, s.log, calls);
    SentStops(respond, s.log, calls);
  }

  /** The guarded loaders: with their flag set they load nothing and change
      nothing; otherwise, after `open`, a successful call forwarded every
      tree in order and set the flag. */
  lemma GuardedLoaders(s: Session, respond: Respond)
    ensures s.got.clusters ==> AfterClusters(s, respond) == (s, Ok(()))
    ensures s.got.digits ==> AfterDigits(s, respond) == (s, Ok(()))
    ensures !s.got.clusters && s.isOpen && AfterClusters(s, respond).1.Ok? ==>
      var t := AfterClusters(s, respond).0;
      t.got == s.got.(clusters := true) && t.log == s.log + ClusterCalls(s.eventTrees, s.fileNames, s.includeUnselected)
    ensures !s.got.digits && AfterDigits(s, respond).1.Ok? ==>
      var t := AfterDigits(s, respond).0;
      t.got == s.got.(digits := true) && t.log == s.log + PerTree(s.eventTrees, Digits(None, s.includeUnselected))
  {
    if !s.got.clusters && s.isOpen {
      RanSpec(s, respond, ClusterCalls(s.eventTrees, s.fileNames, s.includeUnselected), s.got.(clusters := true));
    }
    var calls := PerTree(s.eventTrees, Digits(None, s.includeUnselected));
    if !s.got.digits && (s.isOpen || calls == []) {
      RanSpec(s, respond, calls, s.got.(digits := true));
    }
  }

  /** A run makes the same calls and gets the same answers whatever the
      flags were. */
  lemma RanIgnoresFlags(s: Session, g: Flags, respond: Respond, calls: seq<Call>, loaded1: Flags, loaded2: Flags)
    ensures Ran(s.(got := g), respond, calls, loaded1).1 == Ran(s, respond, calls, loaded2).1
    ensures Ran(s.(got := g), respond, calls, loaded1).0.log == Ran(s, respond, calls, loaded2).0.log
  {
  }

  /** The unguarded loaders: the flag they set makes no difference to what
      they do next time; they run again, make the same calls and set it
      again. */
  lemma MatricesUnguarded(s: Session, respond: Respond, size: (int, int))
    ensures AfterMatrices(s.(got := s.got.(matrices := true)), respond, size).1 == AfterMatrices(s.(got := s.got.(matrices := false)), respond, size).1
    ensures AfterMatrices(s.(got := s.got.(matrices := true)), respond, size).0.log == AfterMatrices(s.(got := s.got.(matrices := false)), respond, size).0.log
  {
    var on, off := s.(got := s.got.(matrices := true)), s.(got := s.got.(matrices := false));
    var calls := if s.got.digits then [Matrices(None, size, s.includeUnselected)] else PerTree(s.eventTrees, Matrices(None, size, s.includeUnselected));
    RanIgnoresFlags(off, on.got, respond, calls, on.got.(matrices := true), off.got.(matrices := true));
    assert on == off.(got := on.got);
  }

  lemma CoordinatesUnguarded(s: Session, respond: Respond)
    ensures AfterCoordinates(s.(got := s.got.(coordinates := true)), respond).1 == AfterCoordinates(s.(got := s.got.(coordinates := false)), respond).1
    ensures AfterCoordinates(s.(got := s.got.(coordinates := true)), respond).0.log == AfterCoordinates(s.(got := s.got.(coordinates := false)), respond).0.log
  {
    var on, off := s.(got := s.got.(coordinates := true)), s.(got := s.got.(coordinates := false));
    var calls := if s.got.clusters then [Coordinates(None)] else PerTree(s.eventTrees, Coordinates(None));
    RanIgnoresFlags(off, on.got, respond, calls, on.got.(coordinates := true), off.got.(coordinates := true));
    assert on == off.(got := on.got);
  }

  lemma LayersUnguarded(s: Session, respond: Respond)
    ensures AfterLayers(s.(got := s.got.(layers := true)), respond).1 == AfterLayers(s.(got := s.got.(layers := false)), respond).1
    ensures AfterLayers(s.(got := s.got.(layers := true)), respond).0.log == AfterLayers(s.(got := s.got.(layers := false)), respond).0.log
  {
    var on, off := s.(got := s.got.(layers := true)), s.(got := s.got.(layers := false));
    var calls := if s.got.clusters then [Layers(None)] else PerTree(s.eventTrees, Layers(None));
    RanIgnoresFlags(off, on.got, respond, calls, on.got.(layers := true), off.got.(layers := true));
    assert on == off.(got := on.got);
  }

  lemma MCDataUnguarded(s: Session, respond: Respond)
    ensures AfterMCData(s.(got := s.got.(mcData := true)), respond).1 == AfterMCData(s.(got := s.got.(mcData := false)), respond).1
    ensures AfterMCData(s.(got := s.got.(mcData := true)), respond).0.log == AfterMCData(s.(got := s.got.(mcData := false)), respond).0.log
  {
    var on, off := s.(got := s.got.(mcData := true)), s.(got := s.got.(mcData := false));
    var calls := PerTree(s.eventTrees, MCData(None, s.includeUnselected));
    RanIgnoresFlags(off, on.got, respond, calls, on.got.(mcData := true), off.got.(mcData := true));
    assert on == off.(got := on.got);
  }

  /** A loader that raised nothing has set its flag. */
  lemma LoadersSetFlags(s: Session, respond: Respond, size: (int, int))
    ensures AfterMatrices(s, respond, size).1.Ok? ==> AfterMatrices(s, respond, size).0.got == s.got.(matrices := true)
    ensures AfterCoordinates(s, respond).1.Ok? ==> AfterCoordinates(s, respond).0.got == s.got.(coordinates := true)
    ensures AfterLayers(s, respond).1.Ok? ==> AfterLayers(s, respond).0.got == s.got.(layers := true)
    ensures AfterMCData(s, respond).1.Ok? ==> AfterMCData(s, respond).0.got == s.got.(mcData := true)
  {
  }

  /** A run logs a prefix of its calls: all of them when none raised. */
  lemma SentPrefix(respond: Respond, log: seq<Call>, calls: seq<Call>)
    ensures var d := Sent(respond, log, calls);
      |log| <= |d.log| <= |log| + |calls| && d.log == log + calls[..|d.log| - |log|]
  {
    SentAll(respond, log, calls);
    SentStops(respond, log, calls);
    var d := Sent(respond, log, calls);
    if d.outcome.Ok? {
      assert calls[..|calls|] == calls;
    } else {
      var k :| StoppedAt(respond, log, calls, d, k);
    }
  }

  /** `getMatrices` passes its `matrixSize` on: every call it makes carries
      that size and the includeUnselected flag; without the digits there is
      one call per tree, in order, and with them a single one without a
      tree. */
  lemma MatricesPassSize(s: Session, respond: Respond, size: (int, int))
    ensures var t := AfterMatrices(s, respond, size).0;
      && |s.log| <= |t.log|
      && forall c :: c in t.log[|s.log|..] ==> c.Matrices? && c.size == size && c.inc == s.includeUnselected
    ensures var t := AfterMatrices(s, respond, size).0;
      AfterMatrices(s, respond, size).1.Ok? && !s.got.digits ==>
        |t.log| == |s.log| + |s.eventTrees| &&
        forall i :: 0 <= i < |s.eventTrees| ==> t.log[|s.log| + i] == Matrices(s.eventTrees[i], size, s.includeUnselected)
    ensures AfterMatrices(s, respond, size).1.Ok? && s.got.digits ==>
      AfterMatrices(s, respond, size).0.log == s.log + [Matrices(None, size, s.includeUnselected)]
  {
    var calls := if s.got.digits then [Matrices(None, size, s.includeUnselected)]
                 else PerTree(s.eventTrees, Matrices(None, size, s.includeUnselected));
    if s.isOpen || calls == [] {
      SentPrefix(respond, s.log, calls);
      SentAll(respond, s.log, calls);
      var t := AfterMatrices(s, respond, size).0;
      assert t.log[|s.log|..] == calls[..|t.log| - |s.log|];
    }
  }

  // ---------------------------------------------------------------------
  // Counts (lines 58-68)

  /** `numEvents`: the number of distinct event numbers (KeyError without
      that column). It counts events only within one file, since every file
      numbers its events from zero. */
  function NumEvents(data: Table<Value>): (r: Result<nat>)
  {
    match Column(data, "eventNumber")
    case Err(e) => Err(e)
    case Ok(c) => Ok(|Distinct(c)|)
  }

  /** `numClusters`: the length of the charge column (KeyError without it). */
  function NumClusters(data: Table<Value>): (r: Result<nat>)
  {
    match Column(data, "clsCharge")
    case Err(e) => Err(e)
    case Ok(c) => Ok(|c|)
  }

  /** Both counts raise KeyError exactly when their column is missing; with
      one event number per cluster there are at most as many events as
      clusters. */
  lemma CountsAgree(data: Table<Value>)
    ensures NumEvents(data).Err? <==> "eventNumber" !in data.columns
    ensures NumClusters(data).Err? <==> "clsCharge" !in data.columns
    ensures NumEvents(data).Err? ==> NumEvents(data).error == KeyError
    ensures NumClusters(data).Err? ==> NumClusters(data).error == KeyError
    ensures NumEvents(data).Ok? && NumClusters(data).Ok? && |data.columns["eventNumber"]| == |data.columns["clsCharge"]| ==>
      NumEvents(data).value <= NumClusters(data).value
  {
    if "eventNumber" in data.columns {
      DistinctAtMostLength(data.columns["eventNumber"]);
    }
  }

  /** `numClusters` of the Rootable and the FancyDict agree when the charge
      column is the first one, as after the first getClusters. */
  lemma NumClustersIsNumRows(data: Table<Value>)
    requires WellFormed(data) && data.order != [] && data.order[0] == "clsCharge"
    ensures NumClusters(data) == NumRows(data)
  {
  }

  // ---------------------------------------------------------------------
  // The loader object

  class Rootable {
    var eventTrees: seq<Option<TreeRef>>
    var isOpen: bool
    var fileNames: seq<string>
    var includeUnselected: bool
    var multiplyFiles: bool
    var got: Flags
    /** The calls made on the PXD so far. */
    var log: seq<Call>

    function State(): Session
      reads this
    {
      Session(eventTrees, isOpen, fileNames, includeUnselected, multiplyFiles, got, log)
    }

    /** Lines 17-30: one `None` tree, nothing opened or loaded. */
    constructor()
      ensures State() == Session([None], false, [], false, false, Flags(false, false, false, false, false, false, false), [])
    {
      eventTrees := [None];
      isOpen := false;
      fileNames := [];
      includeUnselected := false;
      multiplyFiles := false;
      got := Flags(false, false, false, false, false, false, false);
      log := [];
    }

    /** The `for` loops of the loaders: each call in turn, stopping at the
        first that raises. */
    method Send(calls: seq<Call>, respond: Respond) returns (r: Result<()>)
      modifies this
      ensures State() == old(State()).(log := Sent(respond, old(log), calls).log)
      ensures r == Sent(respond, old(log), calls).outcome
    {
      for i := 0 to |calls|
        invariant State() == old(State()).(log := log)
        invariant Sent(respond, old(log), calls) == Sent(respond, log, calls[i..])
      {
        assert calls[i..][1..] == calls[i + 1..];
        var answer := respond(log, calls[i]);
        log := log + [calls[i]];
        if answer.Err? {
          return Err(answer.error);
        }
      }
      r := Ok(());
    }

    /** Runs the calls and sets the flags to `loaded` when none raised. */
    method Run(calls: seq<Call>, respond: Respond, loaded: Flags) returns (r: Result<()>)
      modifies this
      ensures State() == Ran(old(State()), respond, calls, loaded).0 && r == Ran(old(State()), respond, calls, loaded).1
    {
      r := Send(calls, respond);
      if r.Ok? {
        got := loaded;
      }
    }

    /** `open` (lines 92-124). */
    method Open(args: seq<string>, inc: bool, opens: (string, string) -> Result<()>, baseName: string -> string)
      returns (r: Result<()>)
      modifies this
      ensures State() == AfterOpen(old(State()), args, inc, opens, baseName).0 && r == AfterOpen(old(State()), args, inc, opens, baseName).1
    {
      eventTrees := [];
      fileNames := [];
      isOpen := true;
      multiplyFiles := |args| > 1;
      includeUnselected := inc;
      for i := 0 to |args|
        invariant State() == old(State()).(eventTrees := eventTrees, isOpen := true, fileNames := fileNames,
          includeUnselected := inc, multiplyFiles := |args| > 1)
        invariant OpenFrom(opens, baseName, args, [], []) == OpenFrom(opens, baseName, args[i..], eventTrees, fileNames)
      {
        assert args[i..][1..] == args[i + 1..];
        var (file, tree) := SplitSpec(args[i]);
        fileNames := fileNames + [baseName(args[i])];
        var outcome := opens(file, tree);
        if outcome.Err? {
          return Err(outcome.error);
        }
        eventTrees := eventTrees + [Some(TreeRef(file, tree))];
      }
      r := Ok(());
    }

    method GetClusters(respond: Respond) returns (r: Result<()>)
      modifies this
      ensures State() == AfterClusters(old(State()), respond).0 && r == AfterClusters(old(State()), respond).1
    {
      if got.clusters {
        return Ok(());
      }
      if !isOpen {
        return Err(AttributeError);
      }
      r := Run(ClusterCalls(eventTrees, fileNames, includeUnselected), respond, got.(clusters := true));
    }

    method GetDigits(respond: Respond) returns (r: Result<()>)
      modifies this
      ensures State() == AfterDigits(old(State()), respond).0 && r == AfterDigits(old(State()), respond).1
    {
      var inc := includeUnselected;
      var calls := PerTree(eventTrees, Digits(None, inc));
      if got.digits {
        return Ok(());
      }
      if !isOpen && calls != [] {
        return Err(AttributeError);
      }
      r := Run(calls, respond, got.(digits := true));
    }

    method GetMatrices(respond: Respond, size: (int, int) := DefaultMatrixSize) returns (r: Result<()>)
      modifies this
      ensures State() == AfterMatrices(old(State()), respond, size).0 && r == AfterMatrices(old(State()), respond, size).1
    {
      var inc := includeUnselected;
      var calls := if got.digits then [Matrices(None, size, inc)] else PerTree(eventTrees, Matrices(None, size, inc));
      if !isOpen && calls != [] {
        return Err(AttributeError);
      }
      r := Run(calls, respond, got.(matrices := true));
    }

    method GetCoordinates(respond: Respond) returns (r: Result<()>)
      modifies this
      ensures State() == AfterCoordinates(old(State()), respond).0 && r == AfterCoordinates(old(State()), respond).1
    {
      var calls := if got.clusters then [Coordinates(None)] else PerTree(eventTrees, Coordinates(None));
      r := Run(calls, respond, got.(coordinates := true));
    }

    method GetLayers(respond: Respond) returns (r: Result<()>)
      modifies this
      ensures State() == AfterLayers(old(State()), respond).0 && r == AfterLayers(old(State()), respond).1
    {
      var calls := if got.clusters then [Layers(None)] else PerTree(eventTrees, Layers(None));
      r := Run(calls, respond, got.(layers := true));
    }

    method GetSphericals() returns (r: Result<()>)
      modifies this
      ensures State() == AfterSphericals(old(State())).0 && r == AfterSphericals(old(State())).1
    {
      if got.clusters || eventTrees != [] {
        return Err(AttributeError);
      }
      got := got.(sphericals := true);
      r := Ok(());
    }

    method GetMCData(respond: Respond) returns (r: Result<()>)
      modifies this
      ensures State() == AfterMCData(old(State()), respond).0 && r == AfterMCData(old(State()), respond).1
    {
      var inc := includeUnselected;
      var calls := PerTree(eventTrees, MCData(None, inc));
      if !isOpen && calls != [] {
        return Err(AttributeError);
      }
      r := Run(calls, respond, got.(mcData := true));
    }
  }
}
