/** The column table every detector fills (rootable/common/fancyDict.py): a
    dictionary from column name to column, with in-place append, extend,
    item assignment, stack and pop, and reads that build a new table
    (selection by positions, `where`). A Python dict iterates in insertion
    order, and several operations depend on that order (the first column
    gives the row count), so the state is the list of names in order plus
    the map of columns. */
module FancyDict {
  import opened Common

  /** The contents of a FancyDict: the column names in insertion order and
      the columns by name. */
  datatype Table<V> = Table(order: seq<string>, columns: map<string, seq<V>>)

  /** What an operation that may raise half-way leaves behind: the new table
      and whether it raised. */
  datatype Effect<V> = Effect(table: Table<V>, outcome: Result<()>)

  /** One `where` condition after parsing: the column it reads and the
      element-wise test (a comparison with a constant, or membership). */
  datatype Condition<!V> = Condition(key: string, test: V -> bool)

  predicate NoRepeats(s: seq<string>)
  {
    forall i, j :: 0 <= i < j < |s| ==> s[i] != s[j]
  }

  /** The names in `order` are exactly the columns, each once. */
  ghost predicate WellFormed<V>(t: Table<V>)
  {
    NoRepeats(t.order) && forall k :: k in t.columns <==> k in t.order
  }

  /** Every column other than `key` is as it was in `t`. */
  ghost predicate OthersKept<V>(t: Table<V>, r: Table<V>, key: string)
  {
    forall k :: k != key ==> (k in r.columns <==> k in t.columns) && (k in t.columns ==> r.columns[k] == t.columns[k])
  }

  /** Every column has as many rows as the first one. */
  ghost predicate Rectangular<V>(t: Table<V>)
    requires WellFormed(t)
  {
    t.order != [] ==> forall k :: k in t.columns ==> |t.columns[k]| == |t.columns[t.order[0]]|
  }

  /** The position a Python integer index denotes in a sequence of length
      `n`; negative indices count from the end. */
  function Slot(n: nat, i: int): (r: Option<nat>)
    ensures r.Some? <==> -(n as int) <= i < n
    ensures r.Some? ==> r.value < n && (r.value - i) % n == 0
  {
    if 0 <= i < n then Some(i)
    else if -(n as int) <= i < 0 then Some(n + i)
    else None
  }

  lemma SlotIndex<V>(s: seq<V>, i: int)
    ensures PyIndex(s, i) == if Slot(|s|, i).Some? then Some(s[Slot(|s|, i).value]) else None
  {
  }

  /** `names` with `key` taken out, the others in their order. */
  function Without(names: seq<string>, key: string): (r: seq<string>)
    ensures forall x :: x in r <==> x in names && x != key
    ensures NoRepeats(names) ==> NoRepeats(r)
    ensures key !in names ==> r == names
  {
    if names == [] then []
    else
      NoRepeatsTail(names);
      if names[0] == key then Without(names[1..], key)
      else
        var rest := Without(names[1..], key);
        assert NoRepeats(names) ==> NoRepeats([names[0]] + rest) by {
          if NoRepeats(names) {
            forall a, b | 0 <= a < b < |rest| + 1 ensures ([names[0]] + rest)[a] != ([names[0]] + rest)[b] {
              if a == 0 { assert rest[b - 1] in rest; }
            }
          }
        }
        [names[0]] + rest
  }

  lemma NoRepeatsTail(s: seq<string>)
    requires s != []
    ensures NoRepeats(s) ==> NoRepeats(s[1..]) && s[0] !in s[1..]
  {
    if NoRepeats(s) {
      forall a, b | 0 <= a < b < |s| - 1 ensures s[1..][a] != s[1..][b] {
        assert s[1..][a] == s[a + 1] && s[1..][b] == s[b + 1];
      }
      forall q | 0 <= q < |s| - 1 ensures s[1..][q] != s[0] {
        assert s[1..][q] == s[q + 1];
      }
    }
  }

  // ---------------------------------------------------------------------
  // Reads

  /** `__len__` (lines 123-124): the number of columns, not of rows. */
  function Len<V>(t: Table<V>): (r: nat)
    requires WellFormed(t)
    ensures r == |t.columns|
  {
    assert t.columns.Keys == Distinct(t.order);
    DistinctWithoutRepeats(t.order);
    |t.order|
  }

  /** `numClusters` (lines 141-144): the length of the first column;
      IndexError on a table without columns. */
  function NumRows<V>(t: Table<V>): (r: Result<nat>)
    requires WellFormed(t)
    ensures r.Err? <==> |t.columns| == 0
    ensures r.Err? ==> r.error == IndexError
    ensures r.Ok? ==> t.order[0] in t.columns && r.value == |t.columns[t.order[0]]|
  {
    if t.order == [] then
      assert t.columns.Keys == {};
      Err(IndexError)
    else
      assert t.order[0] in t.order;
      Ok(|t.columns[t.order[0]]|)
  }

  /** `__getitem__` with a column name (line 17): KeyError for an unknown
      name. */
  function Column<V>(t: Table<V>, key: string): (r: Result<seq<V>>)
    ensures r.Ok? <==> key in t.columns
    ensures r.Err? ==> r.error == KeyError
    ensures r.Ok? ==> r.value == t.columns[key]
  {
    if key in t.columns then Ok(t.columns[key]) else Err(KeyError)
  }

  /** `__getitem__` with an integer position (line 18): every column's
      entry at that position, keyed by column name; IndexError when some
      column is too short. */
  function RowAt<V>(t: Table<V>, i: int): (r: Result<map<string, V>>)
    ensures r.Ok? <==> forall k :: k in t.columns ==> Slot(|t.columns[k]|, i).Some?
    ensures r.Err? ==> r.error == IndexError
    ensures r.Ok? ==> r.value.Keys == t.columns.Keys
    ensures r.Ok? ==> forall k :: k in t.columns ==> PyIndex(t.columns[k], i) == Some(r.value[k])
  {
    if forall k :: k in t.columns ==> Slot(|t.columns[k]|, i).Some? then
      var row := map k | k in t.columns :: t.columns[k][Slot(|t.columns[k]|, i).value];
      assert forall k :: k in t.columns ==> PyIndex(t.columns[k], i) == Some(row[k]) by {
        forall k | k in t.columns ensures PyIndex(t.columns[k], i) == Some(row[k]) {
          SlotIndex(t.columns[k], i);
        }
      }
      Ok(row)
    else
      Err(IndexError)
  }

  /** The entries of `s` at the positions `idxs`, in the order given. */
  function PickAt<V>(s: seq<V>, idxs: seq<int>): (r: seq<V>)
    requires forall j :: 0 <= j < |idxs| ==> Slot(|s|, idxs[j]).Some?
    ensures |r| == |idxs| && forall j :: 0 <= j < |idxs| ==> PyIndex(s, idxs[j]) == Some(r[j])
  {
    var r := seq(|idxs|, j requires 0 <= j < |idxs| => s[Slot(|s|, idxs[j]).value]);
    assert forall j :: 0 <= j < |idxs| ==> PyIndex(s, idxs[j]) == Some(r[j]) by {
      forall j | 0 <= j < |idxs| ensures PyIndex(s, idxs[j]) == Some(r[j]) {
        SlotIndex(s, idxs[j]);
      }
    }
    r
  }

  /** `__getitem__` with an array of positions (line 18): a new table whose
      every column holds the entries at those positions, in the order given;
      IndexError when a position is outside some column. */
  function Picked<V>(t: Table<V>, idxs: seq<int>): (r: Result<Table<V>>)
    requires WellFormed(t)
    ensures r.Ok? <==> forall k, j :: k in t.columns && 0 <= j < |idxs| ==> Slot(|t.columns[k]|, idxs[j]).Some?
    ensures r.Err? ==> r.error == IndexError
    ensures r.Ok? ==> WellFormed(r.value) && r.value.order == t.order && r.value.columns.Keys == t.columns.Keys
    ensures r.Ok? ==> forall k :: k in t.columns ==> |r.value.columns[k]| == |idxs|
    ensures r.Ok? ==> forall k, j :: k in t.columns && 0 <= j < |idxs| ==> PyIndex(t.columns[k], idxs[j]) == Some(r.value.columns[k][j])
  {
    if forall k, j :: k in t.columns && 0 <= j < |idxs| ==> Slot(|t.columns[k]|, idxs[j]).Some? then
      var picked := map k | k in t.columns :: PickAt(t.columns[k], idxs);
      Ok(Table(t.order, picked))
    else
      Err(IndexError)
  }

  /** Reading one position is selecting the one-element list of positions:
      both raise together, and otherwise agree column by column. */
  lemma RowIsPickedOne<V>(t: Table<V>, i: int)
    requires WellFormed(t)
    ensures RowAt(t, i).Ok? <==> Picked(t, [i]).Ok?
    ensures RowAt(t, i).Ok? ==> forall k :: k in t.columns ==> Picked(t, [i]).value.columns[k] == [RowAt(t, i).value[k]]
  {
    if RowAt(t, i).Ok? {
      forall k | k in t.columns ensures Picked(t, [i]).value.columns[k] == [RowAt(t, i).value[k]] {
        assert PyIndex(t.columns[k], [i][0]) == Some(Picked(t, [i]).value.columns[k][0]);
      }
    } else {
      var k :| k in t.columns && Slot(|t.columns[k]|, i).None?;
      assert [i][0] == i;
    }
  }

  // ---------------------------------------------------------------------
  // In-place updates, as functions of the old contents

  /** `set` (lines 45-48): `value` goes after the end of an existing column;
      a new column is created after the existing ones. */
  function Append<V>(t: Table<V>, key: string, value: seq<V>): (r: Table<V>)
    requires WellFormed(t)
    ensures WellFormed(r)
  {
    if key in t.columns then Table(t.order, t.columns[key := t.columns[key] + value])
    else Table(t.order + [key], t.columns[key := value])
  }

  /** The column, or nothing when there is none. */
  function ColumnOr<V>(t: Table<V>, key: string): seq<V>
  {
    if key in t.columns then t.columns[key] else []
  }

  /** `set` leaves a column of another name as it was. */
  lemma AppendKeeps<V>(t: Table<V>, key: string, value: seq<V>, other: string)
    requires WellFormed(t) && other != key
    ensures (other in Append(t, key, value).columns <==> other in t.columns)
    ensures ColumnOr(Append(t, key, value), other) == ColumnOr(t, other)
  {
  }

  /** `set` extends the named column and keeps every name. */
  lemma AppendGrows<V>(t: Table<V>, key: string, value: seq<V>)
    requires WellFormed(t)
    ensures key in Append(t, key, value).columns && t.columns.Keys <= Append(t, key, value).columns.Keys
    ensures ColumnOr(Append(t, key, value), key) == ColumnOr(t, key) + value
  {
  }

  /** After `set`, the column is what it was followed by the new values,
      a new name comes last, and every other column is as it was. */
  lemma AppendEffect<V>(t: Table<V>, key: string, value: seq<V>)
    requires WellFormed(t)
    ensures var r := Append(t, key, value);
      && key in r.columns && r.columns[key] == ColumnOr(t, key) + value
      && r.order == (if key in t.columns then t.order else t.order + [key])
      && OthersKept(t, r, key)
  {
  }

  /** `extend` (lines 54-57): AssertionError unless every given column
      already exists; then each of those columns is extended by the given
      values and every other column is left alone. */
  function Extended<V>(t: Table<V>, value: Table<V>): (r: Result<Table<V>>)
    requires WellFormed(t) && WellFormed(value)
    ensures r.Err? <==> !(value.columns.Keys <= t.columns.Keys)
    ensures r.Err? ==> r.error == AssertionError
    ensures r.Ok? ==> WellFormed(r.value) && r.value.order == t.order && r.value.columns.Keys == t.columns.Keys
  {
    if value.columns.Keys <= t.columns.Keys then
      Ok(Table(t.order, Grown(t, value, value.order)))
    else
      Err(AssertionError)
  }

  /** After `extend`, a column is what it was followed by the given one. */
  lemma ExtendedColumn<V>(t: Table<V>, value: Table<V>, key: string)
    requires WellFormed(t) && WellFormed(value) && Extended(t, value).Ok? && key in t.columns
    ensures key in Extended(t, value).value.columns
    ensures ColumnOr(Extended(t, value).value, key) == ColumnOr(t, key) + ColumnOr(value, key)
  {
  }

  /** After `extend`, every column is what it was followed by the given
      values for it, if any. */
  lemma ExtendedColumns<V>(t: Table<V>, value: Table<V>)
    requires WellFormed(t) && WellFormed(value) && Extended(t, value).Ok?
    ensures forall k :: k in t.columns ==>
      Extended(t, value).value.columns[k] == t.columns[k] + (if k in value.columns then value.columns[k] else [])
  {
    forall k | k in t.columns
      ensures Extended(t, value).value.columns[k] == t.columns[k] + (if k in value.columns then value.columns[k] else [])
    {
      ExtendedColumn(t, value, k);
    }
  }

  /** The columns of `t` with those named in `done` extended from `value`. */
  function Grown<V>(t: Table<V>, value: Table<V>, done: seq<string>): (r: map<string, seq<V>>)
    requires value.columns.Keys <= t.columns.Keys && WellFormed(value)
    ensures r.Keys == t.columns.Keys
  {
    map k | k in t.columns :: if k in done && k in value.columns then t.columns[k] + value.columns[k] else t.columns[k]
  }

  /** `__setitem__` with a column name (lines 28-30): AssertionError unless
      the new column is as long as the FIRST column (IndexError when there
      is none); then the column is replaced or added at the end. */
  function Assigned<V>(t: Table<V>, key: string, value: seq<V>): (r: Result<Table<V>>)
    requires WellFormed(t)
    ensures NumRows(t).Err? ==> r == Err(IndexError)
    ensures NumRows(t).Ok? ==> (r.Ok? <==> |value| == NumRows(t).value)
    ensures NumRows(t).Ok? && r.Err? ==> r.error == AssertionError
    ensures r.Ok? ==> WellFormed(r.value) && OthersKept(t, r.value, key)
    ensures r.Ok? ==> key in r.value.columns && r.value.columns[key] == value
    ensures r.Ok? ==> r.value.order == if key in t.columns then t.order else t.order + [key]
  {
    match NumRows(t)
    case Err(e) => Err(e)
    case Ok(n) =>
      if |value| != n then Err(AssertionError)
      else if key in t.columns then Ok(Table(t.order, t.columns[key := value]))
      else Ok(Table(t.order + [key], t.columns[key := value]))
  }

  /** Assigning a full-length column keeps a rectangular table rectangular,
      and reading the column back gives the assigned values. */
  lemma AssignedKeepsShape<V>(t: Table<V>, key: string, value: seq<V>)
    requires WellFormed(t) && Rectangular(t) && Assigned(t, key, value).Ok?
    ensures Rectangular(Assigned(t, key, value).value)
    ensures NumRows(Assigned(t, key, value).value) == NumRows(t)
    ensures Column(Assigned(t, key, value).value, key) == Ok(value)
  {
    var r := Assigned(t, key, value).value;
    assert r.order[0] == t.order[0];
  }

  /** `__setitem__` with a (name, position) pair (lines 31-34):
      AssertionError for an unknown name, IndexError for a position outside
      the column; otherwise exactly that entry changes. */
  function CellAssigned<V>(t: Table<V>, key: string, i: int, x: V): (r: Result<Table<V>>)
    requires WellFormed(t)
    ensures key !in t.columns ==> r == Err(AssertionError)
    ensures key in t.columns ==> (r.Err? <==> Slot(|t.columns[key]|, i).None?)
    ensures key in t.columns && r.Err? ==> r.error == IndexError
    ensures r.Ok? ==> WellFormed(r.value) && r.value.order == t.order && OthersKept(t, r.value, key)
    ensures r.Ok? ==> key in t.columns && key in r.value.columns && |r.value.columns[key]| == |t.columns[key]|
    ensures r.Ok? ==> forall j :: 0 <= j < |t.columns[key]| ==>
      r.value.columns[key][j] == if Some(j) == Slot(|t.columns[key]|, i) then x else t.columns[key][j]
  {
    if key !in t.columns then Err(AssertionError)
    else
      match Slot(|t.columns[key]|, i)
      case None => Err(IndexError)
      case Some(p) => Ok(Table(t.order, t.columns[key := t.columns[key][p := x]]))
  }

  /** A column with the entry at Python index `i` replaced, when there is one. */
  function Put<V>(col: seq<V>, i: int, x: V): (r: seq<V>)
    ensures |r| == |col|
    ensures forall j :: 0 <= j < |col| ==> r[j] == if Some(j) == Slot(|col|, i) then x else col[j]
  {
    match Slot(|col|, i)
    case None => col
    case Some(p) => col[p := x]
  }

  /** Whether column `k` has an entry at Python index `i`. */
  ghost predicate Fits<V>(t: Table<V>, i: int, k: string)
  {
    k in t.columns && Slot(|t.columns[k]|, i).Some?
  }

  /** The first position in the column order, from `m` on, whose column has
      no entry at index `i` (the order's length when there is none). */
  function Misfit<V>(t: Table<V>, i: int, m: nat): (r: nat)
    requires WellFormed(t) && m <= |t.order|
    ensures m <= r <= |t.order|
    ensures forall q :: m <= q < r ==> Fits(t, i, t.order[q])
    ensures r < |t.order| ==> !Fits(t, i, t.order[r])
    decreases |t.order| - m
  {
    if m == |t.order| then m
    else if Slot(|t.columns[t.order[m]]|, i).None? then m
    else Misfit(t, i, m + 1)
  }

  lemma {:induction false} MisfitFirst<V>(t: Table<V>, i: int, m: nat, f: nat)
    requires WellFormed(t) && m <= f <= |t.order|
    requires forall q :: m <= q < f ==> Fits(t, i, t.order[q])
    requires f < |t.order| ==> !Fits(t, i, t.order[f])
    ensures Misfit(t, i, m) == f
    decreases f - m
  {
    if m < f {
      assert t.order[m] in t.order;
      MisfitFirst(t, i, m + 1, f);
    }
  }

  /** The columns of `t`, with those named in `done` given `row`'s entry at
      index `i`. */
  function Written<V>(t: Table<V>, i: int, row: map<string, V>, done: seq<string>): (r: map<string, seq<V>>)
    ensures r.Keys == t.columns.Keys
  {
    map k | k in t.columns :: if k in done && k in row then Put(t.columns[k], i, row[k]) else t.columns[k]
  }

  /** `__setitem__` with a row position and a row (lines 35-39):
      AssertionError unless the row has exactly the table's names; then the
      columns are written in order, and the first column without an entry at
      that position raises IndexError, with the columns before it already
      written. */
  function RowEffect<V>(t: Table<V>, i: int, row: map<string, V>): (r: Effect<V>)
    requires WellFormed(t)
    ensures r.table.order == t.order && r.table.columns.Keys == t.columns.Keys
    ensures r.outcome.Ok? <==> row.Keys == t.columns.Keys && forall k :: k in t.columns ==> Fits(t, i, k)
    ensures r.outcome.Err? ==> r.outcome.error == (if row.Keys == t.columns.Keys then IndexError else AssertionError)
  {
    if row.Keys != t.columns.Keys then Effect(t, Err(AssertionError))
    else
      var f := Misfit(t, i, 0);
      if f < |t.order| then
        assert t.order[f] in t.order;
        Effect(Table(t.order, Written(t, i, row, t.order[..f])), Err(IndexError))
      else
        assert forall k :: k in t.columns ==> Fits(t, i, k) by {
          forall k | k in t.columns ensures Fits(t, i, k) {
            var q :| 0 <= q < |t.order| && t.order[q] == k;
          }
        }
        Effect(Table(t.order, Written(t, i, row, t.order)), Ok(()))
  }

  /** A row written without raising reads back as that row. */
  lemma RowEffectReadsBack<V>(t: Table<V>, i: int, row: map<string, V>)
    requires WellFormed(t) && RowEffect(t, i, row).outcome.Ok?
    ensures RowAt(RowEffect(t, i, row).table, i) == Ok(row)
  {
    var r := RowEffect(t, i, row).table;
    assert r.columns == Written(t, i, row, t.order);
    forall k | k in r.columns ensures Slot(|r.columns[k]|, i).Some? && r.columns[k][Slot(|r.columns[k]|, i).value] == row[k] {
      assert Fits(t, i, k);
    }
    var q := RowAt(r, i);
    assert q.Ok?;
    forall k | k in r.columns ensures q.value[k] == row[k] {
      SlotIndex(r.columns[k], i);
    }
    assert q.value.Keys == row.Keys;
    MapsEqual(q.value, row);
  }

  lemma MapsEqual<K, X>(a: map<K, X>, b: map<K, X>)
    requires a.Keys == b.Keys && forall k :: k in a ==> a[k] == b[k]
    ensures a == b
  {
  }

  /** When writing a row raises IndexError, there is a column position `f`
      such that the columns before it hold the row's entries, it and the
      later columns are unchanged, and its column has no entry there. */
  lemma RowEffectPartial<V>(t: Table<V>, i: int, row: map<string, V>)
    requires WellFormed(t) && RowEffect(t, i, row).outcome == Err(IndexError)
    ensures row.Keys == t.columns.Keys
    ensures var r := RowEffect(t, i, row).table; var f := Misfit(t, i, 0);
      f < |t.order| && !Fits(t, i, t.order[f]) &&
      (forall q :: 0 <= q < f ==> r.columns[t.order[q]] == Put(t.columns[t.order[q]], i, row[t.order[q]])) &&
      (forall q :: f <= q < |t.order| ==> r.columns[t.order[q]] == t.columns[t.order[q]])
  {
    var r := RowEffect(t, i, row).table;
    var f := Misfit(t, i, 0);
    assert r.columns == Written(t, i, row, t.order[..f]);
    forall q | 0 <= q < f ensures r.columns[t.order[q]] == Put(t.columns[t.order[q]], i, row[t.order[q]]) {
      assert t.order[q] in t.order[..f];
    }
    forall q | f <= q < |t.order| ensures r.columns[t.order[q]] == t.columns[t.order[q]] {
      assert t.order[q] in t.order;
      assert t.order[q] !in t.order[..f];
    }
  }

  /** The table without column `key` (`pop`, lines 138-139, when the key is
      there). */
  function Drop<V>(t: Table<V>, key: string): (r: Table<V>)
    requires WellFormed(t)
    ensures WellFormed(r) && key !in r.columns
    ensures forall k :: k != key ==> (k in r.columns <==> k in t.columns) && (k in t.columns ==> r.columns[k] == t.columns[k])
    ensures r.order == Without(t.order, key)
  {
    Table(Without(t.order, key), t.columns - {key})
  }

  // ---------------------------------------------------------------------
  // stack (lines 146-171)

  /** Row `i` across the named columns. */
  function Across<V>(t: Table<V>, cols: seq<string>, i: nat): (r: seq<V>)
    requires forall c :: c in cols ==> c in t.columns && i < |t.columns[c]|
    ensures |r| == |cols| && forall c :: 0 <= c < |cols| ==> r[c] == t.columns[cols[c]][i]
  {
    seq(|cols|, c requires 0 <= c < |cols| => t.columns[cols[c]][i])
  }

  /** Lines 153-166: KeyError for any missing column; ValueError from
      `column_stack` for no columns or columns of different lengths;
      otherwise the stacked column, row by row the given columns' entries
      joined (`join` stands for the row of the stacked array, one entry
      when there is one column, which the flattening at lines 162-163
      leaves as a plain entry), is stored under `toKey`. */
  function Stacked<V>(t: Table<V>, cols: seq<string>, toKey: string, join: seq<V> -> V): (r: Result<Table<V>>)
    requires WellFormed(t)
    ensures (exists c :: c in cols && c !in t.columns) ==> r == Err(KeyError)
    ensures (forall c :: c in cols ==> c in t.columns) ==>
      (r.Err? <==> cols == [] || exists c :: c in cols && |t.columns[c]| != |t.columns[cols[0]]|)
    ensures (forall c :: c in cols ==> c in t.columns) && r.Err? ==> r.error == ValueError
    ensures r.Ok? ==> WellFormed(r.value) && OthersKept(t, r.value, toKey) && toKey in r.value.columns
    ensures r.Ok? ==> r.value.order == if toKey in t.columns then t.order else t.order + [toKey]
    ensures r.Ok? ==> cols != [] && cols[0] in t.columns && |r.value.columns[toKey]| == |t.columns[cols[0]]|
    ensures r.Ok? ==> forall c :: c in cols ==> c in t.columns && |t.columns[c]| == |r.value.columns[toKey]|
    ensures r.Ok? ==> forall i :: 0 <= i < |r.value.columns[toKey]| ==> r.value.columns[toKey][i] == join(Across(t, cols, i))
  {
    if exists c :: c in cols && c !in t.columns then Err(KeyError)
    else if cols == [] then Err(ValueError)
    else
      var n := |t.columns[cols[0]]|;
      if exists c :: c in cols && |t.columns[c]| != n then Err(ValueError)
      else
        var stacked := seq(n, i requires 0 <= i < n => join(Across(t, cols, i)));
        if toKey in t.columns then Ok(Table(t.order, t.columns[toKey := stacked]))
        else Ok(Table(t.order + [toKey], t.columns[toKey := stacked]))
  }

  /** Lines 169-171: the named columns popped one after the other; popping
      a name that is no longer there raises KeyError, after the earlier
      pops. */
  function PopAll<V>(t: Table<V>, cols: seq<string>): (r: Effect<V>)
    requires WellFormed(t)
    ensures WellFormed(r.table)
    ensures r.outcome.Err? ==> r.outcome.error == KeyError
    decreases |cols|
  {
    if cols == [] then Effect(t, Ok(()))
    else if cols[0] !in t.columns then Effect(t, Err(KeyError))
    else PopAll(Drop(t, cols[0]), cols[1..])
  }

  /** `stack` as a whole. */
  function StackEffect<V>(t: Table<V>, cols: seq<string>, toKey: string, pop: bool, join: seq<V> -> V): (r: Effect<V>)
    requires WellFormed(t)
    ensures WellFormed(r.table)
  {
    match Stacked(t, cols, toKey, join)
    case Err(e) => Effect(t, Err(e))
    case Ok(s) => if pop then PopAll(s, cols) else Effect(s, Ok(()))
  }

  /** Popping distinct present columns succeeds and removes exactly them. */
  lemma {:induction false} PopAllRemoves<V>(t: Table<V>, cols: seq<string>)
    requires WellFormed(t) && NoRepeats(cols) && forall c :: c in cols ==> c in t.columns
    ensures PopAll(t, cols).outcome.Ok?
    ensures forall k :: k in PopAll(t, cols).table.columns <==> k in t.columns && k !in cols
    ensures forall k :: k in PopAll(t, cols).table.columns ==> PopAll(t, cols).table.columns[k] == t.columns[k]
    decreases |cols|
  {
    if cols != [] {
      var rest := cols[1..];
      assert cols == [cols[0]] + rest;
      assert NoRepeats(rest) && forall c :: c in rest ==> c != cols[0] by {
        forall a, b | 0 <= a < b < |rest| ensures rest[a] != rest[b] {
          assert rest[a] == cols[a + 1] && rest[b] == cols[b + 1];
        }
        forall c | c in rest ensures c != cols[0] {
          var q :| 0 <= q < |rest| && rest[q] == c;
          assert cols[q + 1] == c;
        }
      }
      var d := Drop(t, cols[0]);
      PopAllRemoves(d, rest);
      assert PopAll(t, cols) == PopAll(d, rest);
    }
  }

  /** Naming a column twice makes the pops raise KeyError. */
  lemma {:induction false} PopAllRepeated<V>(t: Table<V>, cols: seq<string>, a: nat, b: nat)
    requires WellFormed(t) && a < b < |cols| && cols[a] == cols[b]
    ensures PopAll(t, cols).outcome == Err(KeyError)
    decreases |cols|
  {
    if cols[0] in t.columns {
      var d := Drop(t, cols[0]);
      if a == 0 {
        PopAllSkips(d, cols[1..], b - 1, cols[0]);
      } else {
        PopAllRepeated(d, cols[1..], a - 1, b - 1);
      }
    }
  }

  /** Popping a list that names an absent column raises KeyError. */
  lemma {:induction false} PopAllSkips<V>(t: Table<V>, cols: seq<string>, b: nat, gone: string)
    requires WellFormed(t) && b < |cols| && cols[b] == gone && gone !in t.columns
    ensures PopAll(t, cols).outcome == Err(KeyError)
    decreases |cols|
  {
    if cols[0] in t.columns {
      PopAllSkips(Drop(t, cols[0]), cols[1..], b - 1, gone);
    }
  }

  /** With `pop`, stacking distinct columns removes them after storing the
      result: the new table holds the old columns and `toKey`, less the
      stacked ones, so a `toKey` among them ends up removed. */
  lemma StackRemovesSources<V>(t: Table<V>, cols: seq<string>, toKey: string, join: seq<V> -> V)
    requires WellFormed(t) && NoRepeats(cols) && Stacked(t, cols, toKey, join).Ok?
    ensures StackEffect(t, cols, toKey, true, join).outcome.Ok?
    ensures forall k :: k in StackEffect(t, cols, toKey, true, join).table.columns <==> (k in t.columns || k == toKey) && k !in cols
    ensures toKey in cols ==> toKey !in StackEffect(t, cols, toKey, true, join).table.columns
  {
    var s := Stacked(t, cols, toKey, join).value;
    PopAllRemoves(s, cols);
  }

  // ---------------------------------------------------------------------
  // where (lines 59-111), with the parsed conditions

  /** Whether condition `c` holds in row `i` of its column; a one-entry
      column broadcasts to every row. */
  ghost predicate Passes<V>(col: seq<V>, c: Condition<V>, i: nat)
    requires |col| == 1 || i < |col|
  {
    c.test(col[if |col| == 1 then 0 else i])
  }

  /** Condition `c` can be combined into a mask of `n` rows: its column
      exists (else KeyError) and broadcasts to `n` rows (else ValueError). */
  ghost predicate Usable<V>(t: Table<V>, c: Condition<V>, n: nat)
  {
    c.key in t.columns && (|t.columns[c.key]| == n || |t.columns[c.key]| == 1)
  }

  /** One `mask &= …` step (lines 79 and 105). */
  function Narrow<V>(t: Table<V>, c: Condition<V>, mask: seq<bool>): (r: Result<seq<bool>>)
    ensures r.Ok? <==> Usable(t, c, |mask|)
    ensures r.Err? ==> r.error == if c.key in t.columns then ValueError else KeyError
    ensures r.Ok? ==> |r.value| == |mask|
    ensures r.Ok? ==> forall i :: 0 <= i < |mask| ==> (r.value[i] <==> mask[i] && Passes(t.columns[c.key], c, i))
  {
    if c.key !in t.columns then Err(KeyError)
    else
      var col := t.columns[c.key];
      if |col| != |mask| && |col| != 1 then Err(ValueError)
      else Ok(seq(|mask|, i requires 0 <= i < |mask| => mask[i] && c.test(col[if |col| == 1 then 0 else i])))
  }

  /** The mask after the given conditions, starting from all `n` rows. */
  function MaskOf<V>(t: Table<V>, conds: seq<Condition<V>>, n: nat): (r: Result<seq<bool>>)
    ensures r.Ok? ==> |r.value| == n
    decreases |conds|
  {
    if conds == [] then Ok(seq(n, _ => true))
    else
      match MaskOf(t, conds[..|conds| - 1], n)
      case Err(e) => Err(e)
      case Ok(m) => Narrow(t, conds[|conds| - 1], m)
  }

  /** Row `i` passes every condition. */
  ghost predicate PassesAll<V>(t: Table<V>, conds: seq<Condition<V>>, n: nat, i: nat)
    requires i < n
  {
    forall j :: 0 <= j < |conds| && Usable(t, conds[j], n) ==> Passes(t.columns[conds[j].key], conds[j], i)
  }

  /** The mask is built exactly when every condition is usable, and then a
      row is in it exactly when it passes every condition. */
  lemma {:induction false} MaskMeaning<V>(t: Table<V>, conds: seq<Condition<V>>, n: nat)
    ensures MaskOf(t, conds, n).Ok? <==> forall j :: 0 <= j < |conds| ==> Usable(t, conds[j], n)
    ensures MaskOf(t, conds, n).Ok? ==> forall i :: 0 <= i < n ==> (MaskOf(t, conds, n).value[i] <==> PassesAll(t, conds, n, i))
    decreases |conds|
  {
    if conds != [] {
      var init := conds[..|conds| - 1];
      MaskMeaning(t, init, n);
      forall j | 0 <= j < |init| ensures init[j] == conds[j] { }
      if MaskOf(t, conds, n).Ok? {
        forall i | 0 <= i < n ensures MaskOf(t, conds, n).value[i] <==> PassesAll(t, conds, n, i) {
          assert PassesAll(t, conds, n, i) <==> PassesAll(t, init, n, i) && Passes(t.columns[conds[|conds| - 1].key], conds[|conds| - 1], i);
        }
      }
    }
  }

  /** The ascending positions where the mask holds. */
  function Kept(mask: seq<bool>): (r: seq<nat>)
    ensures |r| <= |mask|
    ensures forall j :: 0 <= j < |r| ==> r[j] < |mask| && mask[r[j]]
    ensures forall a, b :: 0 <= a < b < |r| ==> r[a] < r[b]
    ensures forall i :: 0 <= i < |mask| && mask[i] ==> i in r
  {
    if mask == [] then []
    else Kept(mask[..|mask| - 1]) + (if mask[|mask| - 1] then [|mask| - 1] else [])
  }

  /** `values[mask]` (line 109). */
  function Filter<V>(s: seq<V>, mask: seq<bool>): (r: seq<V>)
    requires |s| == |mask|
    ensures |r| == |Kept(mask)| <= |s|
    ensures forall j :: 0 <= j < |r| ==> r[j] == s[Kept(mask)[j]]
  {
    seq(|Kept(mask)|, j requires 0 <= j < |Kept(mask)| => s[Kept(mask)[j]])
  }

  /** A mask that keeps everything keeps every position. */
  lemma {:induction false} KeptAll(n: nat)
    ensures Kept(seq(n, _ => true)) == seq(n, i => i)
    decreases n
  {
    if n > 0 {
      assert seq(n, _ => true)[..n - 1] == seq(n - 1, _ => true);
      KeptAll(n - 1);
      assert seq(n - 1, i => i) + [n - 1] == seq(n, i => i);
    }
  }

  /** `where`: StopIteration on a table without columns; the mask errors of
      the conditions; IndexError when a column is not as long as the first;
      otherwise the same columns, each filtered by the mask. */
  function Filtered<V>(t: Table<V>, conds: seq<Condition<V>>): (r: Result<Table<V>>)
    requires WellFormed(t)
    ensures |t.columns| == 0 ==> r == Err(StopIteration)
    ensures r.Ok? ==> WellFormed(r.value) && r.value.order == t.order && r.value.columns.Keys == t.columns.Keys
    ensures r.Ok? ==> forall k :: k in t.columns ==> |r.value.columns[k]| <= |t.columns[k]|
  {
    match NumRows(t)
    case Err(_) => Err(StopIteration)
    case Ok(n) =>
      match MaskOf(t, conds, n)
      case Err(e) => Err(e)
      case Ok(mask) =>
        if !SameLength(t.columns, n) then Err(IndexError)
        else Ok(Table(t.order, FilterEach(t.columns, mask)))
  }

  /** What `where` keeps: on a table with columns, it succeeds exactly when
      the table is rectangular and every condition is usable, and then its
      columns hold, in their order, exactly the rows that pass every
      condition. */
  lemma WhereRows<V>(t: Table<V>, conds: seq<Condition<V>>)
    requires WellFormed(t) && |t.columns| > 0
    ensures var n := NumRows(t).value;
      Filtered(t, conds).Ok? <==> Rectangular(t) && forall j :: 0 <= j < |conds| ==> Usable(t, conds[j], n)
    ensures var n := NumRows(t).value; Filtered(t, conds).Ok? ==>
      var rows := Kept(MaskOf(t, conds, n).value);
      (forall i :: 0 <= i < n ==> (i in rows <==> PassesAll(t, conds, n, i))) &&
      (forall a, b :: 0 <= a < b < |rows| ==> rows[a] < rows[b]) &&
      (forall k :: k in t.columns ==> |Filtered(t, conds).value.columns[k]| == |rows|) &&
      (forall k, j :: k in t.columns && 0 <= j < |rows| ==> rows[j] < n && Filtered(t, conds).value.columns[k][j] == t.columns[k][rows[j]])
  {
    var n := NumRows(t).value;
    MaskMeaning(t, conds, n);
  }

  /** With no conditions, `where` returns a rectangular table unchanged. */
  lemma WhereNothing<V>(t: Table<V>)
    requires WellFormed(t) && |t.columns| > 0 && Rectangular(t)
    ensures Filtered(t, []) == Ok(t)
  {
    var n := NumRows(t).value;
    var mask := seq(n, _ => true);
    assert MaskOf(t, [], n) == Ok(mask);
    assert SameLength(t.columns, n);
    var cols := FilterEach(t.columns, mask);
    forall k | k in t.columns ensures cols[k] == t.columns[k] {
      FilterAll(t.columns[k]);
    }
    MapsEqual(cols, t.columns);
  }

  /** A mask that keeps every row keeps the column as it is. */
  lemma FilterAll<V>(s: seq<V>)
    ensures Filter(s, seq(|s|, _ => true)) == s
  {
    KeptAll(|s|);
  }

  // ---------------------------------------------------------------------
  // The object

  class FancyDict<V> {
    /** The column names in insertion order. */
    var order: seq<string>
    /** `self.data`: the columns by name. */
    var data: map<string, seq<V>>

    function Contents(): Table<V>
      reads this
    {
      Table(order, data)
    }

    ghost predicate Valid()
      reads this
    {
      WellFormed(Contents())
    }

    /** Lines 8-9: the given table, or an empty one. */
    constructor(init: Option<Table<V>>)
      requires init.Some? ==> WellFormed(init.value)
      ensures Valid() && Contents() == if init.Some? then init.value else Table([], map[])
    {
      if init.Some? {
        order, data := init.value.order, init.value.columns;
      } else {
        order, data := [], map[];
      }
    }

    /** `set` (lines 41-48). */
    method Set(key: string, value: seq<V>)
      requires Valid()
      modifies this
      ensures Valid() && Contents() == Append(old(Contents()), key, value)
    {
      if key in data {
        data := data[key := data[key] + value];
      } else {
        order, data := order + [key], data[key := value];
      }
    }

    /** `extend` (lines 50-57): the loop over the given columns. */
    method Extend(value: Table<V>) returns (r: Result<()>)
      requires Valid() && WellFormed(value)
      modifies this
      ensures Valid() && r.Ok? == Extended(old(Contents()), value).Ok?
      ensures r.Err? ==> r.error == AssertionError
      ensures Contents() == if r.Ok? then Extended(old(Contents()), value).value else old(Contents())
    {
      if !(value.columns.Keys <= data.Keys) {
        return Err(AssertionError);
      }
      ghost var t := Contents();
      for m := 0 to |value.order|
        invariant order == t.order
        invariant data == Grown(t, value, value.order[..m])
      {
        ExtendOne(t, value, m);
      }
      assert value.order[..|value.order|] == value.order;
      r := Ok(());
    }

    /** One pass of the loop at lines 56-57. */
    method ExtendOne(ghost t: Table<V>, value: Table<V>, m: nat)
      requires WellFormed(t) && WellFormed(value) && value.columns.Keys <= t.columns.Keys && m < |value.order|
      requires data == Grown(t, value, value.order[..m])
      modifies this
      ensures order == old(order) && data == Grown(t, value, value.order[..m + 1])
    {
      var key := value.order[m];
      GrownStep(t, value, m);
      data := data[key := data[key] + value.columns[key]];
    }

    /** `__setitem__` with a column name (lines 28-30). */
    method SetColumn(key: string, value: seq<V>) returns (r: Result<()>)
      requires Valid()
      modifies this
      ensures Valid() && r.Ok? == Assigned(old(Contents()), key, value).Ok?
      ensures r.Err? ==> r == Err(Assigned(old(Contents()), key, value).error)
      ensures Contents() == if r.Ok? then Assigned(old(Contents()), key, value).value else old(Contents())
    {
      if order == [] {
        return Err(IndexError);
      }
      assert order[0] in order;
      if |value| != |data[order[0]]| {
        return Err(AssertionError);
      }
      if key !in data {
        order := order + [key];
      }
      data := data[key := value];
      r := Ok(());
    }

    /** `__setitem__` with a (name, position) pair (lines 31-34). */
    method SetCell(key: string, i: int, x: V) returns (r: Result<()>)
      requires Valid()
      modifies this
      ensures Valid() && r.Ok? == CellAssigned(old(Contents()), key, i, x).Ok?
      ensures r.Err? ==> r == Err(CellAssigned(old(Contents()), key, i, x).error)
      ensures Contents() == if r.Ok? then CellAssigned(old(Contents()), key, i, x).value else old(Contents())
    {
      if key !in data {
        return Err(AssertionError);
      }
      var p := Slot(|data[key]|, i);
      if p.None? {
        return Err(IndexError);
      }
      data := data[key := data[key][p.value := x]];
      r := Ok(());
    }

    /** `__setitem__` with a row position (lines 35-39): the loop over the
        columns in order. */
    method SetRow(i: int, row: map<string, V>) returns (r: Result<()>)
      requires Valid()
      modifies this
      ensures Valid() && Effect(Contents(), r) == RowEffect(old(Contents()), i, row)
    {
      if row.Keys != data.Keys {
        return Err(AssertionError);
      }
      ghost var t := Contents();
      for m := 0 to |order|
        invariant order == t.order
        invariant forall q :: 0 <= q < m ==> Fits(t, i, t.order[q])
        invariant data == Written(t, i, row, t.order[..m])
      {
        var fits := WriteOne(t, i, row, m);
        if !fits {
          MisfitFirst(t, i, 0, m);
          return Err(IndexError);
        }
      }
      MisfitFirst(t, i, 0, |order|);
      assert t.order[..|t.order|] == t.order;
      r := Ok(());
    }

    /** One pass of the loop at lines 38-39: column `order[m]` takes the
        row's entry, unless it has no entry at that position. */
    method WriteOne(ghost t: Table<V>, i: int, row: map<string, V>, m: nat) returns (fits: bool)
      requires WellFormed(t) && row.Keys == t.columns.Keys && m < |t.order| && order == t.order
      requires data == Written(t, i, row, t.order[..m])
      modifies this
      ensures order == t.order && fits == Fits(t, i, t.order[m])
      ensures data == if fits then Written(t, i, row, t.order[..m + 1]) else old(data)
    {
      var key := order[m];
      WrittenStep(t, i, row, m);
      var p := Slot(|data[key]|, i);
      if p.None? {
        return false;
      }
      data := data[key := data[key][p.value := row[key]]];
      return true;
    }

    /** `pop` (lines 138-139): the column, removed; KeyError when absent. */
    method Pop(key: string) returns (r: Result<seq<V>>)
      requires Valid()
      modifies this
      ensures Valid() && r == Column(old(Contents()), key)
      ensures Contents() == if r.Ok? then Drop(old(Contents()), key) else old(Contents())
    {
      if key !in data {
        return Err(KeyError);
      }
      r := Ok(data[key]);
      order, data := Without(order, key), data - {key};
    }

    /** `stack` (lines 146-171): the existence check, the stacked column,
        and the pops. */
    method Stack(cols: seq<string>, toKey: string, pop: bool, join: seq<V> -> V) returns (r: Result<()>)
      requires Valid()
      modifies this
      ensures Valid() && Effect(Contents(), r) == StackEffect(old(Contents()), cols, toKey, pop, join)
    {
      var t := Contents();
      var present := AllPresent(cols);
      if !present {
        return Err(KeyError);
      }
      if cols == [] {
        return Err(ValueError);
      }
      var n := |data[cols[0]]|;
      if exists c :: c in cols && |data[c]| != n {
        return Err(ValueError);
      }
      var stacked := seq(n, i requires 0 <= i < n => join(Across(t, cols, i)));
      if toKey !in data {
        order := order + [toKey];
      }
      data := data[toKey := stacked];
      assert Contents() == Stacked(t, cols, toKey, join).value;
      r := Ok(());
      if pop {
        r := PopEach(cols);
      }
    }

    /** The existence check of lines 154-156. */
    method AllPresent(cols: seq<string>) returns (present: bool)
      ensures present <==> forall c :: c in cols ==> c in data
    {
      for m := 0 to |cols|
        invariant forall q :: 0 <= q < m ==> cols[q] in data
      {
        if cols[m] !in data {
          assert cols[m] in cols;
          return false;
        }
      }
      return true;
    }

    /** The pops of lines 169-171, one after the other. */
    method PopEach(cols: seq<string>) returns (r: Result<()>)
      requires Valid()
      modifies this
      ensures Valid() && Effect(Contents(), r) == PopAll(old(Contents()), cols)
    {
      for m := 0 to |cols|
        invariant Valid()
        invariant PopAll(Contents(), cols[m..]) == PopAll(old(Contents()), cols)
      {
        assert cols[m..][0] == cols[m] && cols[m..][1..] == cols[m + 1..];
        if cols[m] !in data {
          return Err(KeyError);
        }
        order, data := Without(order, cols[m]), data - {cols[m]};
      }
      assert cols[|cols|..] == [];
      r := Ok(());
    }

    /** `where` (lines 59-111): the mask loop over the conditions, then the
        filtering loop over the columns; a new object, `self` unchanged. */
    method Where(conds: seq<Condition<V>>) returns (r: Result<FancyDict<V>>)
      requires Valid()
      ensures r.Err? <==> Filtered(Contents(), conds).Err?
      ensures r.Err? ==> r.error == Filtered(Contents(), conds).error
      ensures r.Ok? ==> fresh(r.value) && r.value.Valid() && r.value.Contents() == Filtered(Contents(), conds).value
    {
      if order == [] {
        return Err(StopIteration);
      }
      assert order[0] in order;
      var n := |data[order[0]]|;
      var mask := Mask(conds, n);
      if mask.Err? {
        return Err(mask.error);
      }
      var cols := FilterColumns(mask.value);
      if cols.Err? {
        return Err(cols.error);
      }
      var fd := new FancyDict(Some(Table(order, cols.value)));
      r := Ok(fd);
    }

    /** The mask loop of lines 66-105, from all `n` rows. */
    method Mask(conds: seq<Condition<V>>, n: nat) returns (r: Result<seq<bool>>)
      ensures r == MaskOf(Contents(), conds, n)
    {
      var mask: seq<bool> := seq(n, _ => true);
      for j := 0 to |conds|
        invariant MaskOf(Contents(), conds[..j], n) == Ok(mask)
      {
        var next := Narrow(Contents(), conds[j], mask);
        MaskStep(Contents(), conds, n, j, mask);
        if next.Err? {
          MaskSticks(Contents(), conds, n, j + 1);
          return next;
        }
        mask := next.value;
      }
      assert conds[..|conds|] == conds;
      r := Ok(mask);
    }

    /** The filtering loop of lines 108-109, in column order: IndexError
        when a column is not as long as the mask. */
    method FilterColumns(mask: seq<bool>) returns (r: Result<map<string, seq<V>>>)
      requires Valid()
      ensures r.Err? <==> !SameLength(data, |mask|)
      ensures r.Err? ==> r.error == IndexError
      ensures r.Ok? ==> r.value == FilterEach(data, mask)
    {
      var cols: map<string, seq<V>> := map[];
      for q := 0 to |order|
        invariant FilteredSoFar(Contents(), mask, cols, q)
      {
        var key := order[q];
        assert key in order;
        if |data[key]| != |mask| {
          return Err(IndexError);
        }
        FilterStep(Contents(), mask, cols, q);
        cols := cols[key := Filter(data[key], mask)];
      }
      FilterDone(Contents(), mask, cols);
      r := Ok(cols);
    }

    /** `__getitem__` with an array of positions (line 18): a new object. */
    method Rows(idxs: seq<int>) returns (r: Result<FancyDict<V>>)
      requires Valid()
      ensures r.Err? <==> Picked(Contents(), idxs).Err?
      ensures r.Ok? ==> fresh(r.value) && r.value.Valid() && r.value.Contents() == Picked(Contents(), idxs).value
    {
      match Picked(Contents(), idxs)
      case Err(e) =>
        r := Err(e);
      case Ok(p) =>
        var fd := new FancyDict(Some(p));
        r := Ok(fd);
    }
  }

  lemma GrownStep<V>(t: Table<V>, value: Table<V>, m: nat)
    requires WellFormed(t) && WellFormed(value) && value.columns.Keys <= t.columns.Keys && m < |value.order|
    ensures value.order[m] in Grown(t, value, value.order[..m])
    ensures Grown(t, value, value.order[..m + 1]) ==
      Grown(t, value, value.order[..m])[value.order[m] := Grown(t, value, value.order[..m])[value.order[m]] + value.columns[value.order[m]]]
  {
    var key := value.order[m];
    assert key in value.order;
    assert value.order[..m + 1] == value.order[..m] + [key];
    assert key !in value.order[..m];
  }

  lemma WrittenStep<V>(t: Table<V>, i: int, row: map<string, V>, m: nat)
    requires WellFormed(t) && row.Keys == t.columns.Keys && m < |t.order|
    ensures t.order[m] in Written(t, i, row, t.order[..m])
    ensures Written(t, i, row, t.order[..m])[t.order[m]] == t.columns[t.order[m]]
    ensures Slot(|t.columns[t.order[m]]|, i).Some? ==>
      Written(t, i, row, t.order[..m + 1]) ==
      Written(t, i, row, t.order[..m])[t.order[m] := t.columns[t.order[m]][Slot(|t.columns[t.order[m]]|, i).value := row[t.order[m]]]]
  {
    var key := t.order[m];
    assert key in t.order;
    assert key !in t.order[..m];
    if Slot(|t.columns[key]|, i).Some? {
      WrittenPut(t, i, row, m);
    }
  }

  lemma WrittenPut<V>(t: Table<V>, i: int, row: map<string, V>, m: nat)
    requires WellFormed(t) && row.Keys == t.columns.Keys && m < |t.order|
    requires t.order[m] !in t.order[..m] && Slot(|t.columns[t.order[m]]|, i).Some?
    ensures Written(t, i, row, t.order[..m + 1]) ==
      Written(t, i, row, t.order[..m])[t.order[m] := t.columns[t.order[m]][Slot(|t.columns[t.order[m]]|, i).value := row[t.order[m]]]]
  {
    var key := t.order[m];
    assert t.order[..m + 1] == t.order[..m] + [key];
    var a := Written(t, i, row, t.order[..m + 1]);
    var b := Written(t, i, row, t.order[..m])[key := t.columns[key][Slot(|t.columns[key]|, i).value := row[key]]];
    assert key in t.columns && key in row;
    forall k | k in a ensures a[k] == b[k] {
      if k == key {
        assert k in t.order[..m + 1];
      } else {
        assert k in t.order[..m + 1] <==> k in t.order[..m];
      }
    }
    MapsEqual(a, b);
  }

  lemma MaskStep<V>(t: Table<V>, conds: seq<Condition<V>>, n: nat, j: nat, mask: seq<bool>)
    requires j < |conds| && MaskOf(t, conds[..j], n) == Ok(mask)
    ensures MaskOf(t, conds[..j + 1], n) == Narrow(t, conds[j], mask)
  {
    assert conds[..j + 1][..j] == conds[..j];
  }

  /** Every column has `n` rows. */
  predicate SameLength<V>(cols: map<string, seq<V>>, n: nat)
  {
    forall k :: k in cols ==> |cols[k]| == n
  }

  /** Every column filtered by the mask. */
  function FilterEach<V>(cols: map<string, seq<V>>, mask: seq<bool>): (r: map<string, seq<V>>)
    requires SameLength(cols, |mask|)
    ensures r.Keys == cols.Keys
  {
    map k | k in cols :: Filter(cols[k], mask)
  }

  /** The filtering loop has handled the first `q` columns of `t`. */
  ghost predicate FilteredSoFar<V>(t: Table<V>, mask: seq<bool>, cols: map<string, seq<V>>, q: nat)
  {
    q <= |t.order| &&
    (forall p :: 0 <= p < |t.order| ==> (t.order[p] in cols <==> p < q)) &&
    (forall k :: k in cols ==> k in t.columns && |t.columns[k]| == |mask| && cols[k] == Filter(t.columns[k], mask))
  }

  lemma FilterStep<V>(t: Table<V>, mask: seq<bool>, cols: map<string, seq<V>>, q: nat)
    requires WellFormed(t) && FilteredSoFar(t, mask, cols, q) && q < |t.order|
    requires t.order[q] in t.columns && |t.columns[t.order[q]]| == |mask|
    ensures FilteredSoFar(t, mask, cols[t.order[q] := Filter(t.columns[t.order[q]], mask)], q + 1)
  {
  }

  lemma FilterDone<V>(t: Table<V>, mask: seq<bool>, cols: map<string, seq<V>>)
    requires WellFormed(t) && FilteredSoFar(t, mask, cols, |t.order|)
    ensures SameLength(t.columns, |mask|) && cols == FilterEach(t.columns, mask)
  {
    forall k | k in t.columns ensures k in cols {
      var p :| 0 <= p < |t.order| && t.order[p] == k;
    }
    MapsEqual(cols, FilterEach(t.columns, mask));
  }

  /** Once the mask of a prefix of the conditions raises, so does the
      whole mask, with the same error. */
  lemma {:induction false} MaskSticks<V>(t: Table<V>, conds: seq<Condition<V>>, n: nat, j: nat)
    requires j <= |conds| && MaskOf(t, conds[..j], n).Err?
    ensures MaskOf(t, conds, n) == MaskOf(t, conds[..j], n)
    decreases |conds| - j
  {
    if j < |conds| {
      assert conds[..j + 1][..j] == conds[..j];
      MaskSticks(t, conds, n, j + 1);
    } else {
      assert conds[..j] == conds;
    }
  }
}
