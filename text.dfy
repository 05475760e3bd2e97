/**
 * The string operations the Pushshift glue code relies on: joining IDs with
 * commas (the loop of funcs.py:69-72), `str.split(',')` (funcs_pushshift.py:39)
 * and `str(n)` for the `&size=` parameter (funcs.py:19).
 */
module Text {

  /** `','.join(parts)`: the parts separated by single commas, no trailing comma. */
  function Join(parts: seq<string>): string
  {
    if |parts| == 0 then ""
    else if |parts| == 1 then parts[0]
    else parts[0] + "," + Join(parts[1..])
  }

  /** Python's `s[:-1]`: every character but the last; the empty string stays empty. */
  function DropLast(s: string): (r: string)
    ensures |s| > 0 ==> r + [s[|s| - 1]] == s
    ensures |s| == 0 ==> r == ""
  {
    if |s| == 0 then "" else s[..|s| - 1]
  }

  /** Total length of all parts. */
  function TotalLength(parts: seq<string>): nat
  {
    if |parts| == 0 then 0 else |parts[0]| + TotalLength(parts[1..])
  }

  /** Number of commas in `s`. */
  function Commas(s: string): nat
  {
    if |s| == 0 then 0 else (if s[0] == ',' then 1 else 0) + Commas(s[1..])
  }

  /** Python's `s.split(',')`: the maximal comma-free pieces, empty ones included. */
  function Split(s: string): (parts: seq<string>)
    ensures |parts| >= 1
  {
    if |s| == 0 then [""]
    else
      var rest := Split(s[1..]);
      if s[0] == ',' then [""] + rest
      else [[s[0]] + rest[0]] + rest[1..]
  }

  /** The pieces of every string in turn, as `Split` would cut each of them. */
  function SplitAll(chunks: seq<string>): seq<string>
  {
    if |chunks| == 0 then [] else Split(chunks[0]) + SplitAll(chunks[1..])
  }

  /**
   * The accumulation loop of funcs.py:69-72: append each ID and a comma, then
   * drop the last character.
   */
  method JoinIds(ids: seq<string>) returns (joined: string)
    ensures joined == Join(ids)
  {
    var acc := "";
    for i := 0 to |ids|
      invariant acc == if i == 0 then "" else Join(ids[..i]) + ","
    {
      if i > 0 {
        JoinSnoc(ids[..i], ids[i]);
        assert ids[..i + 1] == ids[..i] + [ids[i]];
      }
      acc := acc + ids[i] + ",";
    }
    if |ids| > 0 {
      assert ids[..|ids|] == ids;
    }
    joined := DropLast(acc);
  }

  /** Appending one more part adds one comma and the part. */
  lemma {:induction false} JoinSnoc(parts: seq<string>, last: string)
    requires |parts| >= 1
    ensures Join(parts + [last]) == Join(parts) + "," + last
  {
    if |parts| == 1 {
      assert parts + [last] == [parts[0], last];
    } else {
      assert (parts + [last])[1..] == parts[1..] + [last];
      JoinSnoc(parts[1..], last);
    }
  }

  /** A non-empty list joins to (sum of the lengths) + (number of parts) - 1 characters. */
  lemma {:induction false} JoinLength(parts: seq<string>)
    ensures |parts| >= 1 ==> |Join(parts)| == TotalLength(parts) + |parts| - 1
    ensures |parts| == 0 ==> Join(parts) == ""
  {
    if |parts| > 1 {
      JoinLength(parts[1..]);
    }
  }

  /** Splitting at a comma splits both sides independently. */
  lemma {:induction false} SplitAtComma(a: string, b: string)
    ensures Split(a + "," + b) == Split(a) + Split(b)
  {
    if |a| == 0 {
      assert a + "," + b == [','] + b;
      assert (a + "," + b)[1..] == b;
    } else {
      assert (a + "," + b)[1..] == a[1..] + "," + b;
      SplitAtComma(a[1..], b);
    }
  }

  /** A string without commas is a single piece. */
  lemma {:induction false} SplitCommaFree(s: string)
    requires ',' !in s
    ensures Split(s) == [s]
  {
    if |s| > 0 {
      assert ',' !in s[1..] by {
        forall i | 0 <= i < |s[1..]| ensures s[1..][i] != ',' {
          assert s[1..][i] == s[i + 1];
        }
      }
      SplitCommaFree(s[1..]);
      assert [s[0]] + s[1..] == s;
    }
  }

  /** Splitting a joined list gives the pieces of each element, in order, none lost. */
  lemma {:induction false} SplitOfJoin(chunks: seq<string>)
    requires |chunks| >= 1
    ensures Split(Join(chunks)) == SplitAll(chunks)
  {
    if |chunks| == 1 {
      assert SplitAll(chunks[1..]) == [];
    } else {
      SplitOfJoin(chunks[1..]);
      SplitAtComma(chunks[0], Join(chunks[1..]));
    }
  }

  /** `SplitAll` of comma-free strings hands them back unchanged. */
  lemma {:induction false} SplitAllCommaFree(ids: seq<string>)
    requires forall i :: 0 <= i < |ids| ==> ',' !in ids[i]
    ensures SplitAll(ids) == ids
  {
    if |ids| > 0 {
      SplitCommaFree(ids[0]);
      SplitAllCommaFree(ids[1..]);
    }
  }

  /** Round trip: comma-free IDs, joined and split again, come back as they were. */
  lemma SplitJoinRoundTrip(ids: seq<string>)
    requires |ids| >= 1
    requires forall i :: 0 <= i < |ids| ==> ',' !in ids[i]
    ensures Split(Join(ids)) == ids
  {
    SplitOfJoin(ids);
    SplitAllCommaFree(ids);
  }

  /** Round trip: any string, split and joined again, is unchanged. */
  lemma {:induction false} JoinSplitRoundTrip(s: string)
    ensures Join(Split(s)) == s
  {
    if |s| > 0 {
      var rest := Split(s[1..]);
      JoinSplitRoundTrip(s[1..]);
      if s[0] == ',' {
        assert ([""] + rest)[1..] == rest;
      } else if |rest| > 1 {
        assert ([[s[0]] + rest[0]] + rest[1..])[1..] == rest[1..];
      }
    }
  }

  /** `s.split(',')` has one piece more than `s` has commas, and no piece holds a comma. */
  lemma {:induction false} SplitShape(s: string)
    ensures |Split(s)| == Commas(s) + 1
    ensures forall i :: 0 <= i < |Split(s)| ==> ',' !in Split(s)[i]
  {
    if |s| > 0 {
      SplitShape(s[1..]);
      var rest := Split(s[1..]);
      if s[0] != ',' {
        var parts := Split(s);
        forall i | 0 <= i < |parts| ensures ',' !in parts[i] {
          if i > 0 {
            assert parts[i] == rest[i];
          }
        }
      }
    }
  }

  /** The first piece of a split is the text before the first comma. */
  lemma {:induction false} SplitFirstPiece(s: string)
    ensures Split(s)[0] <= s
    ensures |Split(s)[0]| < |s| ==> s[|Split(s)[0]|] == ','
  {
    if |s| > 0 && s[0] != ',' {
      SplitFirstPiece(s[1..]);
    }
  }

  // ----- str(n) for a positive int -----

  function DigitChar(d: nat): (c: char)
    requires d < 10
    ensures '0' <= c <= '9'
  {
    (48 + d) as char
  }

  /** Python's `str(n)` for a natural number: its decimal digits. */
  function Decimal(n: nat): (r: string)
    ensures |r| >= 1
    ensures forall i :: 0 <= i < |r| ==> '0' <= r[i] <= '9'
    ensures n > 0 ==> r[0] != '0'
  {
    if n < 10 then [DigitChar(n)] else Decimal(n / 10) + [DigitChar(n % 10)]
  }

  predicate AllDigits(s: string)
  {
    forall i :: 0 <= i < |s| ==> '0' <= s[i] <= '9'
  }

  /** Reads a string of decimal digits back as a number (`int(s)`). */
  function ParseDecimal(s: string): nat
    requires AllDigits(s)
  {
    if |s| == 0 then 0
    else ParseDecimal(s[..|s| - 1]) * 10 + (s[|s| - 1] as int - 48)
  }

  /** Round trip: the digits `str(n)` writes are read back as `n`. */
  lemma {:induction false} DecimalRoundTrip(n: nat)
    ensures ParseDecimal(Decimal(n)) == n
  {
    var r := Decimal(n);
    if n >= 10 {
      DecimalRoundTrip(n / 10);
      assert r[..|r| - 1] == Decimal(n / 10);
    }
  }
}
