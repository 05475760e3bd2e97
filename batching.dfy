/**
 * Request-length control for comment IDs (funcs.py:54-55 and 75-108): the
 * length budget, the window offsets, the per-window cut at the last comma,
 * and how the code as written turns a comma position inside a window into
 * the end of the batch. A greedy chunking that cuts where the code
 * evidently meant to is given beside it.
 */
module Batching {
  import opened Wrappers
  import opened Exceptions
  import opened Text
  import opened Urls

  /** The fixed text funcs.py:55 deducts from the 8189-character budget. */
  const CUTOFF_PREFIX := "https://api.pushshift.io/reddit/comment/search/?ids=filter="

  /** `cutoff_len` of funcs.py:55. */
  function Cutoff(cmtField: string): (c: int)
    ensures c == 8130 - |cmtField|
  {
    8189 - |CUTOFF_PREFIX + cmtField|
  }

  /** Python's `range(lo, hi, step)` for a positive step. */
  function Range(lo: nat, hi: nat, step: nat): (r: seq<nat>)
    requires step > 0
    ensures |r| > 0 <==> lo < hi
    ensures |r| > 0 ==> r[0] == lo
    ensures forall i :: 0 <= i < |r| ==> lo <= r[i] < hi
    ensures forall i :: 0 <= i < |r| - 1 ==> r[i + 1] == r[i] + step
    ensures forall i, j :: 0 <= i < j < |r| ==> r[i] + step <= r[j]
    ensures |r| > 0 ==> hi <= r[|r| - 1] + step
    decreases hi - lo
  {
    if lo >= hi then [] else [lo] + Range(lo + step, hi, step)
  }

  /** `range(lo, hi, step)` has ceil((hi - lo) / step) elements: the last step reaches or passes `hi`, the one before does not. */
  lemma RangeCount(lo: nat, hi: nat, step: nat)
    requires step > 0
    ensures var n := |Range(lo, hi, step)|;
      lo < hi ==> (n - 1) * step < hi - lo <= n * step
  {
    RangeHasSize(lo, hi, step);
    SizeBounds(lo, hi, step);
  }

  /** The number of steps from `lo` that stay below `hi`. */
  function RangeSize(lo: nat, hi: nat, step: nat): nat
    requires step > 0
    decreases hi - lo
  {
    if lo >= hi then 0 else 1 + RangeSize(lo + step, hi, step)
  }

  lemma {:induction false} RangeHasSize(lo: nat, hi: nat, step: nat)
    requires step > 0
    ensures |Range(lo, hi, step)| == RangeSize(lo, hi, step)
    decreases hi - lo
  {
    if lo < hi {
      RangeHasSize(lo + step, hi, step);
    }
  }

  lemma {:induction false} SizeBounds(lo: nat, hi: nat, step: nat)
    requires step > 0
    ensures var n := RangeSize(lo, hi, step);
      lo < hi ==> (n - 1) * step < hi - lo <= n * step
    decreases hi - lo
  {
    if lo < hi {
      var m := RangeSize(lo + step, hi, step);
      if lo + step < hi {
        SizeBounds(lo + step, hi, step);
        CountSucc(m, step, hi - lo);
      } else {
        assert m == 0;
        assert (m + 1) * step == step;
      }
    }
  }

  /** One more step: the bounds on `d - step` give the bounds on `d`. */
  lemma CountSucc(m: int, step: int, d: int)
    requires (m - 1) * step < d - step <= m * step
    ensures m * step < d <= (m + 1) * step
  {
    MulSucc(m, step);
    MulSucc(m - 1, step);
  }

  lemma MulSucc(n: int, step: int)
    ensures (n + 1) * step == n * step + step
  {
  }

  /** The comma positions of `w` in increasing order: `[pos for pos, char in enumerate(w) if char == ',']`. */
  function CommaPositions(w: string): (ps: seq<nat>)
    ensures forall j :: 0 <= j < |ps| ==> ps[j] < |w| && w[ps[j]] == ','
    ensures forall p :: 0 <= p < |w| && w[p] == ',' ==> p in ps
    ensures forall j, k :: 0 <= j < k < |ps| ==> ps[j] < ps[k]
  {
    if |w| == 0 then []
    else CommaPositions(w[..|w| - 1]) + (if w[|w| - 1] == ',' then [|w| - 1] else [])
  }

  /** Python's `max` of a non-empty list. */
  function Max(xs: seq<nat>): (m: nat)
    requires |xs| > 0
    ensures m in xs
    ensures forall j :: 0 <= j < |xs| ==> xs[j] <= m
  {
    if |xs| == 1 then xs[0]
    else
      var rest := Max(xs[1..]);
      if xs[0] >= rest then xs[0] else rest
  }

  /** The largest comma position is the last comma: nothing after it is a comma. */
  lemma MaxCommaIsLast(w: string)
    requires |CommaPositions(w)| > 0
    ensures var e := Max(CommaPositions(w));
      e < |w| && w[e] == ',' && forall p :: e < p < |w| ==> w[p] != ','
  {
  }

  /** Python's `s[lo:hi]` for `0 <= lo, hi <= len(s)`: empty unless `lo < hi`. */
  function Slice(s: string, lo: nat, hi: nat): string
    requires lo <= |s| && hi <= |s|
  {
    if lo < hi then s[lo..hi] else ""
  }

  /** The window offsets `idx_batch` of funcs.py:85. */
  function Offsets(s: string, c: nat): seq<nat>
    requires c > 0
  {
    Range(0, |s|, c)
  }

  /** Where window `ii` ends: at the next offset (funcs.py:87) or, for the last, at the end (funcs.py:98). */
  function WindowEnd(s: string, c: nat, ii: nat): (hi: nat)
    requires c > 0 && ii < |Offsets(s, c)|
    ensures Offsets(s, c)[ii] < hi <= |s| && hi - Offsets(s, c)[ii] <= c
  {
    var offs := Offsets(s, c);
    if ii + 1 < |offs| then offs[ii + 1] else |s|
  }

  /** The text of window `ii`. */
  function Window(s: string, c: nat, ii: nat): string
    requires c > 0 && ii < |Offsets(s, c)|
  {
    s[Offsets(s, c)[ii]..WindowEnd(s, c, ii)]
  }

  /**
   * The batch of window `ii`, as written: `max(idx_temp)` is a position inside
   * the window, but it is used as the absolute end index of the slice. A
   * window without a comma makes `max([])` raise, outside the `try`.
   */
  function BatchAt(s: string, c: nat, ii: nat): Result<string, Exception>
    requires c > 0 && ii < |Offsets(s, c)|
  {
    var idxTemp := CommaPositions(Window(s, c, ii));
    if |idxTemp| == 0 then Err(ValueError("max() arg is an empty sequence"))
    else Ok(Slice(s, Offsets(s, c)[ii], Max(idxTemp)))
  }

  /** Windows `ii` onwards, after the batches `acc` of the earlier ones. */
  function BatchesFrom(s: string, c: nat, ii: nat, acc: seq<string>): Result<seq<string>, Exception>
    requires c > 0 && ii <= |Offsets(s, c)|
    decreases |Offsets(s, c)| - ii
  {
    if ii == |Offsets(s, c)| then Ok(acc)
    else
      match BatchAt(s, c, ii)
      case Err(e) => Err(e)
      case Ok(b) => BatchesFrom(s, c, ii + 1, acc + [b])
  }

  /** One window of the loop: its batch is appended, or its failure ends the loop. */
  lemma BatchesFromStep(s: string, c: nat, ii: nat, acc: seq<string>)
    requires c > 0 && ii < |Offsets(s, c)|
    ensures BatchAt(s, c, ii).Err? ==> BatchesFrom(s, c, ii, acc) == Err(BatchAt(s, c, ii).error)
    ensures BatchAt(s, c, ii).Ok? ==>
      BatchesFrom(s, c, ii, acc) == BatchesFrom(s, c, ii + 1, acc + [BatchAt(s, c, ii).value])
  {
  }

  /**
   * The ID strings funcs.py:75-108 sends, one request each, for the joined
   * IDs `s`: the whole string when it fits the budget, one batch per window
   * otherwise; a budget of 0 makes `range` raise, a negative one leaves
   * `idx_batch` empty so that `idx_batch[-1]` raises.
   */
  function Batches(s: string, cutoff: int): Result<seq<string>, Exception>
  {
    if |s| <= cutoff then Ok([s])
    else if cutoff == 0 then Err(ValueError("range() arg 3 must not be zero"))
    else if cutoff < 0 then Err(IndexError("list index out of range"))
    else BatchesFrom(s, cutoff, 0, [])
  }

  /** The batch of window 0 ends just before a comma and is shorter than the budget; later batches are empty. */
  lemma BatchAtShape(s: string, c: nat, ii: nat)
    requires c > 0 && ii < |Offsets(s, c)|
    ensures BatchAt(s, c, ii).Ok? && ii == 0 ==>
      var b := BatchAt(s, c, ii).value; b <= s && |b| < c && s[|b|] == ','
    ensures BatchAt(s, c, ii).Ok? && ii > 0 ==> BatchAt(s, c, ii).value == ""
    ensures BatchAt(s, c, ii).Err? <==> ',' !in Window(s, c, ii)
  {
    var offs := Offsets(s, c);
    var w := Window(s, c, ii);
    var idxTemp := CommaPositions(w);
    if |idxTemp| > 0 {
      var e := Max(idxTemp);
      assert e < |w| <= c;
      if ii == 0 {
        assert w[e] == s[e];
      } else {
        assert offs[0] + c <= offs[ii];
      }
    }
  }

  /** `BatchesFrom` succeeds exactly when every remaining window yields a batch. */
  lemma {:induction false} BatchesFromOkIff(s: string, c: nat, ii: nat, acc: seq<string>)
    requires c > 0 && ii <= |Offsets(s, c)|
    ensures BatchesFrom(s, c, ii, acc).Ok? <==> forall j :: ii <= j < |Offsets(s, c)| ==> BatchAt(s, c, j).Ok?
    decreases |Offsets(s, c)| - ii, 1
  {
    if ii < |Offsets(s, c)| {
      BatchesFromOkIffStep(s, c, ii, acc);
    }
  }

  /** The step of `BatchesFromOkIff`: window `ii` fails, or the rest decides. */
  lemma {:induction false} BatchesFromOkIffStep(s: string, c: nat, ii: nat, acc: seq<string>)
    requires c > 0 && ii < |Offsets(s, c)|
    ensures BatchesFrom(s, c, ii, acc).Ok? <==> forall j :: ii <= j < |Offsets(s, c)| ==> BatchAt(s, c, j).Ok?
    decreases |Offsets(s, c)| - ii, 0
  {
    BatchesFromStep(s, c, ii, acc);
    if BatchAt(s, c, ii).Ok? {
      BatchesFromOkIff(s, c, ii + 1, acc + [BatchAt(s, c, ii).value]);
    }
  }

  /**
   * A successful window loop that has handled windows `..ii` (one batch each, in
   * `acc`) ends with one batch per window: window `j`'s batch at position `j`.
   */
  lemma {:induction false} BatchesFromShape(s: string, c: nat, ii: nat, acc: seq<string>)
    requires c > 0 && ii <= |Offsets(s, c)| && |acc| == ii
    requires BatchesFrom(s, c, ii, acc).Ok?
    ensures var bs := BatchesFrom(s, c, ii, acc).value;
      && |bs| == |Offsets(s, c)|
      && bs[..ii] == acc
      && forall j :: ii <= j < |Offsets(s, c)| ==> BatchAt(s, c, j) == Ok(bs[j])
    decreases |Offsets(s, c)| - ii, 1
  {
    if ii < |Offsets(s, c)| {
      BatchesFromShapeStep(s, c, ii, acc);
    } else {
      assert BatchesFrom(s, c, ii, acc) == Ok(acc);
    }
  }

  /** The inductive step of `BatchesFromShape`: window `ii`, then the rest. */
  lemma {:induction false} BatchesFromShapeStep(s: string, c: nat, ii: nat, acc: seq<string>)
    requires c > 0 && ii < |Offsets(s, c)| && |acc| == ii
    requires BatchesFrom(s, c, ii, acc).Ok?
    ensures var bs := BatchesFrom(s, c, ii, acc).value;
      && |bs| == |Offsets(s, c)|
      && bs[..ii] == acc
      && forall j :: ii <= j < |Offsets(s, c)| ==> BatchAt(s, c, j) == Ok(bs[j])
    decreases |Offsets(s, c)| - ii, 0
  {
    BatchesFromStep(s, c, ii, acc);
    var b := BatchAt(s, c, ii).value;
    var next := acc + [b];
    BatchesFromShape(s, c, ii + 1, next);
    var bs := BatchesFrom(s, c, ii + 1, next).value;
    PrefixThenElement(bs, acc, b);
  }

  /** A sequence that starts with `acc + [b]` starts with `acc`, and `b` comes next. */
  lemma PrefixThenElement(bs: seq<string>, acc: seq<string>, b: string)
    requires |bs| > |acc| && bs[..|acc| + 1] == acc + [b]
    ensures bs[..|acc|] == acc && bs[|acc|] == b
  {
    assert bs[..|acc|] == bs[..|acc| + 1][..|acc|];
    assert bs[|acc|] == bs[..|acc| + 1][|acc|];
  }

  /** Exactly one request is made iff the joined IDs fit the budget. */
  lemma SingleRequestIff(s: string, cutoff: int)
    requires Batches(s, cutoff).Ok?
    ensures |Batches(s, cutoff).value| == 1 <==> |s| <= cutoff
    ensures |s| <= cutoff ==> Batches(s, cutoff).value == [s]
  {
    if |s| > cutoff {
      BatchesFromShape(s, cutoff, 0, []);
      assert |Offsets(s, cutoff)| >= 2 by {
        var offs := Offsets(s, cutoff);
        assert offs[|offs| - 1] + cutoff >= |s| > cutoff;
      }
    }
  }

  /**
   * Past the budget, ceil(len / cutoff) requests (at least two) are made, one per
   * window offset 0, c, 2c, ..., each offset below the length.
   */
  lemma BatchCount(s: string, cutoff: int)
    requires |s| > cutoff > 0 && Batches(s, cutoff).Ok?
    ensures var n := |Batches(s, cutoff).value|;
      n >= 2 && (n - 1) * cutoff < |s| <= n * cutoff
    ensures Batches(s, cutoff).value == BatchesFrom(s, cutoff, 0, []).value
    ensures |Batches(s, cutoff).value| == |Offsets(s, cutoff)|
  {
    BatchesFromShape(s, cutoff, 0, []);
    RangeCount(0, |s|, cutoff);
    SingleRequestIff(s, cutoff);
  }

  /**
   * Past the budget, the first batch is a prefix of the joined IDs that stops
   * just before a comma and is shorter than the budget, and every later batch,
   * the tail's included, is empty: the IDs after the first window are never requested.
   */
  lemma OnlyFirstBatchNonEmpty(s: string, cutoff: int)
    requires |s| > cutoff > 0 && Batches(s, cutoff).Ok?
    ensures var bs := Batches(s, cutoff).value;
      && |bs| >= 2 && bs[0] <= s && |bs[0]| < cutoff && s[|bs[0]|] == ','
      && forall i :: 1 <= i < |bs| ==> bs[i] == ""
  {
    BatchesFromShape(s, cutoff, 0, []);
    var bs := Batches(s, cutoff).value;
    BatchAtShape(s, cutoff, 0);
    forall i | 1 <= i < |bs| ensures bs[i] == "" {
      BatchAtShape(s, cutoff, i);
    }
  }

  /** Past the budget, the batches together carry fewer characters than the joined IDs: IDs are dropped. */
  lemma BatchesDropIds(s: string, cutoff: int)
    requires |s| > cutoff > 0 && Batches(s, cutoff).Ok?
    ensures TotalLength(Batches(s, cutoff).value) < cutoff < |s|
  {
    OnlyFirstBatchNonEmpty(s, cutoff);
    var bs := Batches(s, cutoff).value;
    TotalLengthOfEmpties(bs[1..]);
  }

  lemma {:induction false} TotalLengthOfEmpties(parts: seq<string>)
    requires forall i :: 0 <= i < |parts| ==> parts[i] == ""
    ensures TotalLength(parts) == 0
  {
    if |parts| > 0 {
      TotalLengthOfEmpties(parts[1..]);
    }
  }

  /**
   * Every comment request URL stays within 8190 characters: each batch is at
   * most the budget long, and the budget leaves room for the fixed text and the filter.
   */
  lemma CommentRequestsWithinLimit(s: string, cmtField: string)
    requires Batches(s, Cutoff(cmtField)).Ok?
    ensures var bs := Batches(s, Cutoff(cmtField)).value;
      forall i :: 0 <= i < |bs| ==> |CommentUrl(bs[i], cmtField)| <= 8190
  {
    var c := Cutoff(cmtField);
    var bs := Batches(s, c).value;
    if |s| > c {
      OnlyFirstBatchNonEmpty(s, c);
    } else {
      assert bs == [s];
    }
    forall i | 0 <= i < |bs| ensures |CommentUrl(bs[i], cmtField)| <= 8190 {
      assert |bs[i]| <= c;
      BatchUrlWithinLimit(bs[i], cmtField);
    }
  }

  /** A batch no longer than the budget gives a URL within 8190 characters. */
  lemma BatchUrlWithinLimit(b: string, cmtField: string)
    requires |b| <= Cutoff(cmtField)
    ensures |CommentUrl(b, cmtField)| <= 8190
  {
  }

  /** Past the budget, the run crashes exactly when some window holds no comma. */
  lemma BatchingCrashIff(s: string, cutoff: int)
    requires |s| > cutoff > 0
    ensures Batches(s, cutoff).Err? <==> exists ii :: 0 <= ii < |Offsets(s, cutoff)| && ',' !in Window(s, cutoff, ii)
  {
    BatchesFromOkIff(s, cutoff, 0, []);
    forall ii | 0 <= ii < |Offsets(s, cutoff)| ensures BatchAt(s, cutoff, ii).Err? <==> ',' !in Window(s, cutoff, ii) {
      BatchAtShape(s, cutoff, ii);
    }
  }

  /**
   * One character over the budget, the tail window is the single last
   * character; unless that is a comma, the run crashes.
   */
  lemma OneOverBudgetCrashes(s: string, cutoff: int)
    requires cutoff > 0 && |s| == cutoff + 1 && s[cutoff] != ','
    ensures Batches(s, cutoff).Err?
  {
    var offs := Offsets(s, cutoff);
    assert offs == [0, cutoff] by {
      assert Range(cutoff + cutoff, |s|, cutoff) == [];
    }
    assert Window(s, cutoff, 1) == [s[cutoff]];
    BatchingCrashIff(s, cutoff);
  }

  /** A budget of zero or less, once exceeded, crashes before any request. */
  lemma NonPositiveBudgetCrashes(s: string, cutoff: int)
    requires |s| > cutoff && cutoff <= 0
    ensures Batches(s, cutoff).Err?
  {
  }

  /** Concrete case: the IDs a, b, c, d with a budget of 4 lead to the requests "a,b" and "": c and d are lost. */
  lemma BatchingLosesIds()
    ensures Batches("a,b,c,d", 4) == Ok(["a,b", ""])
  {
    ExampleBatches("a,b,c,d");
  }

  lemma ExampleBatches(s: string)
    requires s == "a,b,c,d"
    ensures Batches(s, 4) == Ok(["a,b", ""])
  {
    WindowsOfExample(s);
    BatchesFromOkIff(s, 4, 0, []);
    BatchesFromShape(s, 4, 0, []);
    var bs := BatchesFrom(s, 4, 0, []).value;
    assert bs == [bs[0], bs[1]];
  }

  lemma WindowsOfExample(s: string)
    requires s == "a,b,c,d"
    ensures |Offsets(s, 4)| == 2
    ensures BatchAt(s, 4, 0) == Ok("a,b")
    ensures BatchAt(s, 4, 1) == Ok("")
  {
    FirstWindowOfExample();
    SecondWindowOfExample();
  }

  lemma ExampleOffsets()
    ensures Offsets("a,b,c,d", 4) == [0, 4]
  {
    assert Range(8, 7, 4) == [];
    assert Range(4, 7, 4) == [4];
  }

  lemma FirstWindowOfExample()
    ensures |Offsets("a,b,c,d", 4)| == 2
    ensures BatchAt("a,b,c,d", 4, 0) == Ok("a,b")
  {
    FirstWindowText();
    FirstWindowCommas();
    FirstBatchText();
  }

  /** Window 0 of `a,b,c,d` with budget 4 is `a,b,`. */
  lemma FirstWindowText()
    ensures |Offsets("a,b,c,d", 4)| == 2 && Offsets("a,b,c,d", 4)[0] == 0
    ensures Window("a,b,c,d", 4, 0) == "a,b,"
  {
    ExampleOffsets();
    assert WindowEnd("a,b,c,d", 4, 0) == 4;
    assert "a,b,c,d"[0..4] == "a,b,";
  }

  /** The text before position 3 of `a,b,c,d` is `a,b`. */
  lemma FirstBatchText()
    ensures Slice("a,b,c,d", 0, 3) == "a,b"
  {
    assert "a,b,c,d"[0..3] == "a,b";
  }

  /** The last comma of window `a,b,` is at position 3. */
  lemma FirstWindowCommas()
    ensures |CommaPositions("a,b,")| > 0 && Max(CommaPositions("a,b,")) == 3
  {
    var w := "a,b,";
    var ps := CommaPositions(w);
    assert w[3] == ',';
    assert 3 in ps;
    assert Max(ps) < |w|;
  }

  /** Window `c,d` has a comma, and its last one is at position 1, before the window's end. */
  lemma SecondWindowCommas()
    ensures |CommaPositions("c,d")| > 0 && Max(CommaPositions("c,d")) < 3
  {
    var w := "c,d";
    var ps := CommaPositions(w);
    assert w[1] == ',';
    assert 1 in ps;
    assert Max(ps) < |w|;
  }

  lemma SecondWindowOfExample()
    ensures |Offsets("a,b,c,d", 4)| == 2
    ensures BatchAt("a,b,c,d", 4, 1) == Ok("")
  {
    ExampleOffsets();
    assert WindowEnd("a,b,c,d", 4, 1) == 7;
    assert "a,b,c,d"[4..7] == "c,d";
    assert Window("a,b,c,d", 4, 1) == "c,d";
    SecondWindowCommas();
  }

  // ----- batching as the code evidently intends it -----

  /**
   * Greedy chunking: take the longest prefix up to a comma at index at most
   * `c`, then continue after that comma; the rest goes whole once it fits.
   * `None` when some ID alone is longer than the budget.
   */
  function Chunks(s: string, c: int): Option<seq<string>>
    decreases |s|
  {
    if |s| <= c then Some([s])
    else if c < 0 then None
    else
      var commas := CommaPositions(s[..c + 1]);
      if |commas| == 0 then None
      else
        var k := Max(commas);
        match Chunks(s[k + 1..], c)
        case None => None
        case Some(rest) => Some([s[..k]] + rest)
  }

  /**
   * The chunks rejoined with commas give back the joined IDs exactly, none is
   * longer than the budget, and there is more than one only when the IDs do
   * not fit the budget.
   */
  lemma {:induction false} ChunksPartition(s: string, c: int)
    requires Chunks(s, c).Some?
    ensures var cs := Chunks(s, c).value;
      && |cs| >= 1
      && Join(cs) == s
      && (forall i :: 0 <= i < |cs| ==> |cs[i]| <= c)
      && (|cs| == 1 <==> |s| <= c)
    decreases |s|
  {
    if |s| > c {
      var k := ChunksStep(s, c);
      var head, tail := s[..k], s[k + 1..];
      ChunksPartition(tail, c);
      var rest := Chunks(tail, c).value;
      var cs := Chunks(s, c).value;
      assert cs[1..] == rest;
      assert Join(cs) == head + "," + Join(rest);
      forall i | 0 <= i < |cs| ensures |cs[i]| <= c {
        if i > 0 { assert cs[i] == rest[i - 1]; }
      }
    }
  }

  /** One greedy cut: past the budget, the first chunk ends at the last comma within the budget. */
  lemma ChunksStep(s: string, c: int) returns (k: nat)
    requires Chunks(s, c).Some? && |s| > c
    ensures k <= c && k < |s| && s[k] == ','
    ensures s == s[..k] + "," + s[k + 1..]
    ensures Chunks(s[k + 1..], c).Some?
    ensures Chunks(s, c).value == [s[..k]] + Chunks(s[k + 1..], c).value
  {
    k := Max(CommaPositions(s[..c + 1]));
    assert s[..c + 1][k] == s[k];
  }

  /** When the first ID fits the budget, the first `c + 1` characters hold a comma; `k` is the last one. */
  lemma FirstWindowCut(s: string, c: int) returns (k: nat)
    requires c >= 0 && |s| > c && |Split(s)[0]| <= c
    ensures |CommaPositions(s[..c + 1])| > 0 && k == Max(CommaPositions(s[..c + 1]))
    ensures k <= c && s[k] == ','
  {
    var first := Split(s)[0];
    SplitFirstPiece(s);
    var w := s[..c + 1];
    assert w[|first|] == ',';
    var commas := CommaPositions(w);
    assert |first| in commas;
    k := Max(commas);
    assert w[k] == s[k];
  }

  /** A string is the text before a comma, the comma and the text after it. */
  lemma CutAtComma(s: string, k: nat)
    requires k < |s| && s[k] == ','
    ensures s == s[..k] + "," + s[k + 1..]
  {
    assert s[k..] == [s[k]] + s[k + 1..];
    assert s == s[..k] + s[k..];
  }

  /** With the budget of funcs.py:55, every request of the corrected chunking stays within 8190 characters. */
  lemma ChunkRequestsWithinLimit(s: string, cmtField: string)
    requires Chunks(s, Cutoff(cmtField)).Some?
    ensures var cs := Chunks(s, Cutoff(cmtField)).value;
      forall i :: 0 <= i < |cs| ==> |CommentUrl(cs[i], cmtField)| <= 8190
  {
    ChunksPartition(s, Cutoff(cmtField));
  }

  /** No ID is split or lost: the chunks' pieces are the pieces of the joined IDs, in order. */
  lemma ChunksKeepIds(ids: seq<string>, c: int)
    requires |ids| >= 1 && forall i :: 0 <= i < |ids| ==> ',' !in ids[i]
    requires Chunks(Join(ids), c).Some?
    ensures SplitAll(Chunks(Join(ids), c).value) == ids
  {
    var cs := Chunks(Join(ids), c).value;
    ChunksPartition(Join(ids), c);
    SplitOfJoin(cs);
    SplitJoinRoundTrip(ids);
  }

  /** Chunking succeeds whenever no single ID is longer than the budget. */
  lemma {:induction false} ChunksSucceed(s: string, c: int)
    requires c >= 0
    requires forall i :: 0 <= i < |Split(s)| ==> |Split(s)[i]| <= c
    ensures Chunks(s, c).Some?
    decreases |s|, 1
  {
    if |s| > c {
      ChunksSucceedStep(s, c);
    }
  }

  /** The step of `ChunksSucceed`: the first piece fits, so the window has a comma to cut at. */
  lemma {:induction false} ChunksSucceedStep(s: string, c: int)
    requires c >= 0 && |s| > c
    requires forall i :: 0 <= i < |Split(s)| ==> |Split(s)[i]| <= c
    ensures Chunks(s, c).Some?
    decreases |s|, 0
  {
    var k := FirstWindowCut(s, c);
    CutAtComma(s, k);
    TailPiecesFit(s[..k], s[k + 1..], c);
    ChunksSucceed(s[k + 1..], c);
    ChunksCutAt(s, c, k);
  }

  /** Past the budget, chunking cuts at the last comma of the first `c + 1` characters and goes on after it. */
  lemma ChunksCutAt(s: string, c: int, k: nat)
    requires c >= 0 && |s| > c
    requires |CommaPositions(s[..c + 1])| > 0 && k == Max(CommaPositions(s[..c + 1]))
    ensures Chunks(s, c) == match Chunks(s[k + 1..], c)
                            case None => None
                            case Some(rest) => Some([s[..k]] + rest)
  {
  }

  /** The IDs after a comma are among the IDs of the whole string, so they fit the budget too. */
  lemma TailPiecesFit(a: string, b: string, c: int)
    requires forall i :: 0 <= i < |Split(a + "," + b)| ==> |Split(a + "," + b)[i]| <= c
    ensures forall i :: 0 <= i < |Split(b)| ==> |Split(b)[i]| <= c
  {
    SplitAtComma(a, b);
    SuffixFits(Split(a), Split(b), c);
  }

  /** Every string of `before + after` fitting the budget, every string of `after` does. */
  lemma SuffixFits(before: seq<string>, after: seq<string>, c: int)
    requires forall i :: 0 <= i < |before + after| ==> |(before + after)[i]| <= c
    ensures forall i :: 0 <= i < |after| ==> |after[i]| <= c
  {
    forall i | 0 <= i < |after| ensures |after[i]| <= c {
      assert after[i] == (before + after)[|before| + i];
    }
  }
}
