/**
 * The part of a pandas DataFrame the glue code uses: named columns, rows of
 * cells, `drop_duplicates(subset=key, keep='first')` and selection of a list
 * of columns `df[names]`.
 */
module Frames {
  import opened Wrappers
  import opened Exceptions
  import opened Text

  /** A decoded JSON scalar. */
  datatype Value = Num(n: int) | Str(s: string)

  /** One record: column name to cell; a column the record lacks holds NaN. */
  type Row = map<string, Value>

  datatype Table = Table(columns: seq<string>, rows: seq<Row>)

  /**
   * One request: `requests.get(url)`, `json.loads` and `pd.DataFrame(data['data'])`,
   * giving a table, or `None` when any of the three fails.
   */
  type Fetcher = string -> Option<Table>

  /** The cell of a row in a column; `None` stands for NaN. */
  function Cell(row: Row, column: string): Option<Value>
  {
    if column in row then Some(row[column]) else None
  }

  /** Python's `str(x)` of a cell. */
  function CellString(cell: Option<Value>): string
  {
    match cell
    case None => "nan"
    case Some(Str(s)) => s
    case Some(Num(n)) => if n < 0 then "-" + Decimal(-n) else Decimal(n)
  }

  /** The key values of all rows. */
  function KeyValues(rows: seq<Row>, key: string): set<Option<Value>>
  {
    set i | 0 <= i < |rows| :: Cell(rows[i], key)
  }

  /** Row `i` is the first row with its key value (NaN keys compare equal, as in pandas). */
  predicate IsFirstOccurrence(rows: seq<Row>, key: string, i: nat)
    requires i < |rows|
  {
    forall j :: 0 <= j < i ==> Cell(rows[j], key) != Cell(rows[i], key)
  }

  /** `drop_duplicates(subset=key, keep='first')` on the row sequence. */
  function KeepFirst(rows: seq<Row>, key: string): seq<Row>
  {
    if |rows| == 0 then []
    else
      var init := rows[..|rows| - 1];
      var last := rows[|rows| - 1];
      KeepFirst(init, key) + (if Cell(last, key) in KeyValues(init, key) then [] else [last])
  }

  /** The positions of the rows `KeepFirst` keeps. */
  ghost function KeptIndices(rows: seq<Row>, key: string): seq<nat>
  {
    if |rows| == 0 then []
    else
      var init := rows[..|rows| - 1];
      KeptIndices(init, key)
        + (if Cell(rows[|rows| - 1], key) in KeyValues(init, key) then [] else [|rows| - 1])
  }

  /**
   * `kept` is `rows` at the strictly increasing positions `idx`, and those
   * positions are exactly the first occurrences of the key values.
   */
  ghost predicate IsFirstOccurrenceSelection(rows: seq<Row>, key: string, kept: seq<Row>, idx: seq<nat>)
  {
    && |kept| == |idx|
    && (forall j :: 0 <= j < |idx| ==> idx[j] < |rows| && kept[j] == rows[idx[j]])
    && (forall j, k :: 0 <= j < k < |idx| ==> idx[j] < idx[k])
    && (forall j :: 0 <= j < |idx| ==> idx[j] < |rows| && IsFirstOccurrence(rows, key, idx[j]))
    && (forall i :: 0 <= i < |rows| && IsFirstOccurrence(rows, key, i) ==> i in idx)
  }

  /**
   * `KeepFirst` keeps exactly the first occurrence of every key value, in the
   * original order: its rows are the input rows at strictly increasing positions,
   * each such position a first occurrence, and every first occurrence is kept.
   */
  lemma {:induction false} KeepFirstIsFirstOccurrences(rows: seq<Row>, key: string)
    ensures IsFirstOccurrenceSelection(rows, key, KeepFirst(rows, key), KeptIndices(rows, key))
  {
    if |rows| > 0 {
      var init := rows[..|rows| - 1];
      KeepFirstIsFirstOccurrences(init, key);
      if Cell(rows[|rows| - 1], key) in KeyValues(init, key) {
        KeepFirstSkipsRepeat(rows, key);
      } else {
        KeepFirstKeepsNew(rows, key);
      }
    }
  }

  /** Dropping the last row changes no earlier row's first-occurrence status. */
  lemma FirstOccurrenceOfPrefix(rows: seq<Row>, key: string, i: nat)
    requires i < |rows| - 1
    ensures IsFirstOccurrence(rows, key, i) == IsFirstOccurrence(rows[..|rows| - 1], key, i)
  {
    assert forall j :: 0 <= j <= i ==> rows[j] == rows[..|rows| - 1][j];
  }

  /** A last row whose key value came earlier is not a first occurrence, and is dropped. */
  lemma KeepFirstSkipsRepeat(rows: seq<Row>, key: string)
    requires |rows| > 0
    requires Cell(rows[|rows| - 1], key) in KeyValues(rows[..|rows| - 1], key)
    requires IsFirstOccurrenceSelection(rows[..|rows| - 1], key,
                                        KeepFirst(rows[..|rows| - 1], key), KeptIndices(rows[..|rows| - 1], key))
    ensures IsFirstOccurrenceSelection(rows, key, KeepFirst(rows, key), KeptIndices(rows, key))
  {
    var init, n := rows[..|rows| - 1], |rows| - 1;
    var kept, idx := KeepFirst(init, key), KeptIndices(init, key);
    assert KeepFirst(rows, key) == kept;
    assert KeptIndices(rows, key) == idx;
    var w :| 0 <= w < n && Cell(init[w], key) == Cell(rows[n], key);
    assert init[w] == rows[w];
    assert !IsFirstOccurrence(rows, key, n);
    forall j | 0 <= j < |idx| ensures idx[j] < |rows| && kept[j] == rows[idx[j]] {
      assert init[idx[j]] == rows[idx[j]];
    }
    forall j | 0 <= j < |idx| ensures idx[j] < |rows| && IsFirstOccurrence(rows, key, idx[j]) {
      FirstOccurrenceOfPrefix(rows, key, idx[j]);
    }
    forall i | 0 <= i < |rows| && IsFirstOccurrence(rows, key, i) ensures i in idx {
      FirstOccurrenceOfPrefix(rows, key, i);
    }
  }

  /** A last row with a new key value is a first occurrence, and is kept at the end. */
  lemma KeepFirstKeepsNew(rows: seq<Row>, key: string)
    requires |rows| > 0
    requires Cell(rows[|rows| - 1], key) !in KeyValues(rows[..|rows| - 1], key)
    requires IsFirstOccurrenceSelection(rows[..|rows| - 1], key,
                                        KeepFirst(rows[..|rows| - 1], key), KeptIndices(rows[..|rows| - 1], key))
    ensures IsFirstOccurrenceSelection(rows, key, KeepFirst(rows, key), KeptIndices(rows, key))
  {
    var init, n := rows[..|rows| - 1], |rows| - 1;
    var kept0, idx0 := KeepFirst(init, key), KeptIndices(init, key);
    var kept, idx := kept0 + [rows[n]], idx0 + [n];
    assert KeepFirst(rows, key) == kept;
    assert KeptIndices(rows, key) == idx;
    assert IsFirstOccurrence(rows, key, n) by {
      forall j | 0 <= j < n ensures Cell(rows[j], key) != Cell(rows[n], key) {
        assert rows[j] == init[j];
      }
    }
    forall j | 0 <= j < |idx| ensures idx[j] < |rows| && kept[j] == rows[idx[j]] {
      if j < |idx0| {
        assert idx[j] == idx0[j] && kept[j] == kept0[j] && init[idx0[j]] == rows[idx0[j]];
      }
    }
    forall j, k | 0 <= j < k < |idx| ensures idx[j] < idx[k] {
      if k < |idx0| {
        assert idx[j] == idx0[j] && idx[k] == idx0[k];
      } else {
        assert idx[j] == idx0[j] < n;
      }
    }
    forall j | 0 <= j < |idx| ensures idx[j] < |rows| && IsFirstOccurrence(rows, key, idx[j]) {
      if j < |idx0| {
        assert idx[j] == idx0[j];
        FirstOccurrenceOfPrefix(rows, key, idx0[j]);
      }
    }
    forall i | 0 <= i < |rows| && IsFirstOccurrence(rows, key, i) ensures i in idx {
      if i < n {
        FirstOccurrenceOfPrefix(rows, key, i);
        assert i in idx0;
      }
    }
  }

  /** No key value occurs twice among the rows `KeepFirst` keeps. */
  lemma {:induction false} KeepFirstNoRepeats(rows: seq<Row>, key: string)
    ensures forall j, k :: 0 <= j < k < |KeepFirst(rows, key)| ==>
      Cell(KeepFirst(rows, key)[j], key) != Cell(KeepFirst(rows, key)[k], key)
  {
    KeepFirstIsFirstOccurrences(rows, key);
    var kept, idx := KeepFirst(rows, key), KeptIndices(rows, key);
    forall j, k | 0 <= j < k < |kept| ensures Cell(kept[j], key) != Cell(kept[k], key) {
      assert idx[j] < idx[k];
      assert IsFirstOccurrence(rows, key, idx[k]);
    }
  }

  /** Every key value of the input is still present after `KeepFirst`, and no other. */
  lemma {:induction false} KeepFirstKeepsKeyValues(rows: seq<Row>, key: string)
    ensures KeyValues(KeepFirst(rows, key), key) == KeyValues(rows, key)
  {
    if |rows| > 0 {
      var init := rows[..|rows| - 1];
      var last := rows[|rows| - 1];
      KeepFirstKeepsKeyValues(init, key);
      var k0 := KeepFirst(init, key);
      var tail := if Cell(last, key) in KeyValues(init, key) then [] else [last];
      KeyValuesAppend(k0, tail, key);
      KeyValuesAppend(init, [last], key);
      assert init + [last] == rows;
    }
  }

  lemma KeyValuesAppend(a: seq<Row>, b: seq<Row>, key: string)
    ensures KeyValues(a + b, key) == KeyValues(a, key) + KeyValues(b, key)
  {
    var ab := a + b;
    forall v | v in KeyValues(ab, key) ensures v in KeyValues(a, key) + KeyValues(b, key) {
      var i :| 0 <= i < |ab| && Cell(ab[i], key) == v;
      if i >= |a| {
        assert ab[i] == b[i - |a|];
      }
    }
    forall v | v in KeyValues(b, key) ensures v in KeyValues(ab, key) {
      var i :| 0 <= i < |b| && Cell(b[i], key) == v;
      assert ab[|a| + i] == b[i];
    }
    forall v | v in KeyValues(a, key) ensures v in KeyValues(ab, key) {
      var i :| 0 <= i < |a| && Cell(a[i], key) == v;
      assert ab[i] == a[i];
    }
  }

  /** No key value occurs twice among `rows`. */
  predicate DistinctKeys(rows: seq<Row>, key: string)
  {
    forall j, k :: 0 <= j < k < |rows| ==> Cell(rows[j], key) != Cell(rows[k], key)
  }

  /** Rows whose key values are already distinct are left as they are; so `KeepFirst` is idempotent. */
  lemma {:induction false} KeepFirstOfDistinct(rows: seq<Row>, key: string)
    requires DistinctKeys(rows, key)
    ensures KeepFirst(rows, key) == rows
    decreases |rows|, 1
  {
    if |rows| > 0 {
      KeepFirstOfDistinctStep(rows, key);
    }
  }

  /** The step of `KeepFirstOfDistinct`: the last row's key is new, so the row is kept. */
  lemma {:induction false} KeepFirstOfDistinctStep(rows: seq<Row>, key: string)
    requires |rows| > 0 && DistinctKeys(rows, key)
    ensures KeepFirst(rows, key) == rows
    decreases |rows|, 0
  {
    var init, last := rows[..|rows| - 1], rows[|rows| - 1];
    assert DistinctKeys(init, key) by {
      forall j, k | 0 <= j < k < |init| ensures Cell(init[j], key) != Cell(init[k], key) {
        assert init[j] == rows[j] && init[k] == rows[k];
      }
    }
    KeepFirstOfDistinct(init, key);
    assert Cell(last, key) !in KeyValues(init, key) by {
      forall j | 0 <= j < |init| ensures Cell(init[j], key) != Cell(last, key) {
        assert init[j] == rows[j];
      }
    }
    assert KeepFirst(rows, key) == init + [last];
    assert init + [last] == rows;
  }

  lemma KeepFirstIdempotent(rows: seq<Row>, key: string)
    ensures KeepFirst(KeepFirst(rows, key), key) == KeepFirst(rows, key)
  {
    KeepFirstNoRepeats(rows, key);
    KeepFirstOfDistinct(KeepFirst(rows, key), key);
  }

  /**
   * `if key != '': df = df.drop_duplicates(subset=key, keep='first')`: an empty
   * key leaves the table alone; a key that is not a column raises KeyError.
   */
  function RemoveDuplicates(t: Table, key: Value): (r: Result<Table, Exception>)
    ensures key == Str("") ==> r == Ok(t)
    ensures key != Str("") ==> (r.Ok? <==> key.Str? && key.s in t.columns)
    ensures r.Ok? && key != Str("") ==>
      r.value.columns == t.columns && r.value.rows == KeepFirst(t.rows, key.s)
  {
    if key == Str("") then Ok(t)
    else if key.Str? && key.s in t.columns then Ok(Table(t.columns, KeepFirst(t.rows, key.s)))
    else Err(KeyError(CellString(Some(key))))
  }

  /** A row cut down to the given columns. */
  function Restrict(row: Row, names: seq<string>): (r: Row)
    ensures forall c :: c in r <==> c in row && c in names
    ensures forall c :: c in r ==> r[c] == row[c]
  {
    map c | c in row && c in names :: row[c]
  }

  /** Every row cut down to the given columns. */
  function RestrictAll(rows: seq<Row>, names: seq<string>): (r: seq<Row>)
    ensures |r| == |rows|
    ensures forall i :: 0 <= i < |rows| ==> r[i] == Restrict(rows[i], names)
  {
    if |rows| == 0 then [] else [Restrict(rows[0], names)] + RestrictAll(rows[1..], names)
  }

  /**
   * `df[names]`: the table with exactly the listed columns, in the listed order;
   * KeyError when one of them is not a column.
   */
  function Project(t: Table, names: seq<string>): (r: Result<Table, Exception>)
    ensures r.Ok? <==> forall i :: 0 <= i < |names| ==> names[i] in t.columns
    ensures r.Ok? ==> r.value.columns == names && |r.value.rows| == |t.rows|
    ensures r.Ok? ==> forall i, c :: 0 <= i < |t.rows| && c in names ==>
      Cell(r.value.rows[i], c) == Cell(t.rows[i], c)
    ensures r.Ok? ==> forall i, c :: 0 <= i < |t.rows| && c !in names ==> Cell(r.value.rows[i], c) == None
  {
    if forall i :: 0 <= i < |names| ==> names[i] in t.columns then
      Ok(Table(names, RestrictAll(t.rows, names)))
    else
      Err(KeyError(Join(names)))
  }

  /** No entry occurs twice. */
  predicate NoRepeats(s: seq<string>)
  {
    forall i, j :: 0 <= i < j < |s| ==> s[i] != s[j]
  }

  /** `sub` is `s` with some entries left out, the rest in their order. */
  predicate IsSubsequence(sub: seq<string>, s: seq<string>)
    decreases |s|
  {
    if |sub| == 0 then true
    else if |s| == 0 then false
    else if sub[0] == s[0] then IsSubsequence(sub[1..], s[1..])
    else IsSubsequence(sub, s[1..])
  }

  /** The entries of `cols` not in `seen`, each once, in order. */
  function NewColumns(seen: seq<string>, cols: seq<string>): (r: seq<string>)
    ensures forall c :: c in r ==> c !in seen && c in cols
    ensures forall c :: c in cols ==> c in seen || c in r
    ensures NoRepeats(r)
    ensures IsSubsequence(r, cols)
    decreases |cols|
  {
    if |cols| == 0 then []
    else if cols[0] in seen then
      var r := NewColumns(seen, cols[1..]);
      assert r == [] || r[0] != cols[0];
      r
    else
      var rest := NewColumns(seen + [cols[0]], cols[1..]);
      var r := [cols[0]] + rest;
      assert r[1..] == rest;
      forall j | 0 <= j < |rest| ensures rest[j] != cols[0] {
        assert rest[j] in rest;
      }
      r
  }

  /** Appending the new columns of `cols` to distinct `seen` keeps the columns distinct. */
  lemma AppendNewColumns(seen: seq<string>, cols: seq<string>)
    ensures NoRepeats(seen) ==> NoRepeats(seen + NewColumns(seen, cols))
  {
    var r := NewColumns(seen, cols);
    var s := seen + r;
    forall i, j | 0 <= i < j < |s| && NoRepeats(seen) ensures s[i] != s[j] {
      if j < |seen| {
        assert s[i] == seen[i] && s[j] == seen[j];
      } else if i < |seen| {
        assert s[i] == seen[i] && s[j] == r[j - |seen|] && r[j - |seen|] in r;
      } else {
        assert s[i] == r[i - |seen|] && s[j] == r[j - |seen|];
      }
    }
  }

  /** Total number of rows. */
  function RowCount(tables: seq<Table>): nat
  {
    if |tables| == 0 then 0 else |tables[0].rows| + RowCount(tables[1..])
  }

  /** The rows of all tables, one table after another. */
  function AllRows(tables: seq<Table>): (rows: seq<Row>)
    ensures |rows| == RowCount(tables)
  {
    if |tables| == 0 then [] else tables[0].rows + AllRows(tables[1..])
  }

  /**
   * `pd.concat(tables)` appended to `acc`: the rows one table after another, the
   * columns in order of first appearance, each once.
   */
  function ConcatOnto(acc: Table, tables: seq<Table>): (r: Table)
    ensures acc.columns <= r.columns
    ensures r.rows == acc.rows + AllRows(tables)
    ensures |r.rows| == |acc.rows| + RowCount(tables)
    ensures forall k, c :: 0 <= k < |tables| && c in tables[k].columns ==> c in r.columns
    ensures forall c :: c in r.columns ==>
      c in acc.columns || exists k :: 0 <= k < |tables| && c in tables[k].columns
    ensures NoRepeats(acc.columns) ==> NoRepeats(r.columns)
    decreases |tables|
  {
    if |tables| == 0 then acc
    else
      var t := tables[0];
      var next := Table(acc.columns + NewColumns(acc.columns, t.columns), acc.rows + t.rows);
      var r := ConcatOnto(next, tables[1..]);
      ConcatRowsStep(acc.rows, tables, r.rows);
      ConcatCoverStep(acc.columns, tables, next.columns, r.columns);
      ConcatOriginStep(acc.columns, tables, r.columns);
      AppendNewColumns(acc.columns, t.columns);
      r
  }

  lemma ConcatRowsStep(acc: seq<Row>, tables: seq<Table>, rows: seq<Row>)
    requires |tables| > 0 && rows == acc + tables[0].rows + AllRows(tables[1..])
    ensures rows == acc + AllRows(tables)
  {
  }

  lemma ConcatCoverStep(acc: seq<string>, tables: seq<Table>, next: seq<string>, cols: seq<string>)
    requires |tables| > 0 && next == acc + NewColumns(acc, tables[0].columns) && next <= cols
    requires forall k, c :: 0 <= k < |tables[1..]| && c in tables[1..][k].columns ==> c in cols
    ensures forall k, c :: 0 <= k < |tables| && c in tables[k].columns ==> c in cols
  {
    forall k, c | 0 <= k < |tables| && c in tables[k].columns ensures c in cols {
      if k == 0 {
        assert c in next;
      } else {
        assert tables[k] == tables[1..][k - 1];
      }
    }
  }

  lemma ConcatOriginStep(acc: seq<string>, tables: seq<Table>, cols: seq<string>)
    requires |tables| > 0
    requires forall c :: c in cols ==>
      c in acc + NewColumns(acc, tables[0].columns) || exists k :: 0 <= k < |tables[1..]| && c in tables[1..][k].columns
    ensures forall c :: c in cols ==> c in acc || exists k :: 0 <= k < |tables| && c in tables[k].columns
  {
    forall c | c in cols && c !in acc ensures exists k :: 0 <= k < |tables| && c in tables[k].columns {
      if c in NewColumns(acc, tables[0].columns) {
        assert c in tables[0].columns;
      } else {
        var k :| 0 <= k < |tables[1..]| && c in tables[1..][k].columns;
        assert tables[k + 1] == tables[1..][k];
      }
    }
  }

  /**
   * `pd.concat(tables)`: every row of every table, in order, under each column
   * of some table, named once.
   */
  function Concat(tables: seq<Table>): (r: Table)
    ensures r.rows == AllRows(tables)
    ensures forall c :: c in r.columns <==> exists k :: 0 <= k < |tables| && c in tables[k].columns
    ensures NoRepeats(r.columns)
  {
    ConcatOnto(Table([], []), tables)
  }
}
