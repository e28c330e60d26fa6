/**
 * String helpers the server relies on through Python built-ins: decimal
 * formatting of integers (f-strings), newline-terminated records, suffix tests
 * (`str.endswith`) and counting occurrences in an argument list.
 */
module Text {
  import opened Wrappers

  predicate IsDigit(c: char) {
    '0' <= c <= '9'
  }

  predicate AllDigits(s: string) {
    forall i :: 0 <= i < |s| ==> IsDigit(s[i])
  }

  function Digit(d: nat): (c: char)
    requires d < 10
    ensures IsDigit(c) && c as int - '0' as int == d
  {
    ('0' as int + d) as char
  }

  /** Decimal text of `n`, without leading zeros: what `str(n)` gives. */
  function Decimal(n: nat): (s: string)
    ensures |s| > 0
    decreases n
  {
    if n < 10 then [Digit(n)] else Decimal(n / 10) + [Digit(n % 10)]
  }

  lemma {:induction false} DecimalDigits(n: nat)
    ensures AllDigits(Decimal(n))
    ensures |Decimal(n)| > 1 ==> Decimal(n)[0] != '0'
    decreases n
  {
    if n >= 10 {
      DecimalDigits(n / 10);
      assert Decimal(n)[..|Decimal(n)| - 1] == Decimal(n / 10);
    }
  }

  /** The number a string of digits denotes, reading it left to right. */
  function DigitsValue(s: string): nat
    requires AllDigits(s)
    decreases |s|
  {
    if s == [] then 0
    else DigitsValue(s[..|s| - 1]) * 10 + (s[|s| - 1] as int - '0' as int)
  }

  /** `int(s)` restricted to unsigned decimal literals. */
  function ParseDecimal(s: string): (r: Option<nat>)
    ensures r.Some? <==> |s| > 0 && AllDigits(s)
  {
    if |s| > 0 && AllDigits(s) then Some(DigitsValue(s)) else None
  }

  lemma {:induction false} ParseDecimalOfDecimal(n: nat)
    ensures ParseDecimal(Decimal(n)) == Some(n)
    decreases n
  {
    var s := Decimal(n);
    DecimalDigits(n);
    if n < 10 {
      assert s[..0] == [];
    } else {
      ParseDecimalOfDecimal(n / 10);
      assert s[..|s| - 1] == Decimal(n / 10);
      assert s[|s| - 1] == Digit(n % 10);
      assert DigitsValue(s) == DigitsValue(Decimal(n / 10)) * 10 + n % 10;
    }
  }

  /** Decimal text never contains a character that is not a digit. */
  lemma DecimalAvoids(n: nat, c: char)
    requires !IsDigit(c)
    ensures c !in Decimal(n)
  {
    DecimalDigits(n);
  }

  /** Index of the first `c` in `s`, or `|s|` when there is none. */
  function IndexOf(s: string, c: char): (i: nat)
    ensures i <= |s|
    ensures i < |s| ==> s[i] == c
    ensures forall j :: 0 <= j < i ==> s[j] != c
    decreases |s|
  {
    if s == [] then 0
    else if s[0] == c then 0
    else 1 + IndexOf(s[1..], c)
  }

  lemma IndexOfAfter(a: string, c: char, b: string)
    requires c !in a
    ensures IndexOf(a + [c] + b, c) == |a|
  {
    var s := a + [c] + b;
    assert s[|a|] == c;
  }

  /** The records of a text whose records each end in a newline. */
  function JoinLines(lines: seq<string>): (t: string)
    decreases |lines|
  {
    if lines == [] then [] else lines[0] + "\n" + JoinLines(lines[1..])
  }

  /**
   * Splits a text at newlines into records. A final record without a newline
   * is kept; an empty text has no records.
   */
  function SplitLines(t: string): seq<string>
    decreases |t|
  {
    if t == [] then []
    else
      var i := IndexOf(t, '\n');
      if i == |t| then [t] else [t[..i]] + SplitLines(t[i + 1..])
  }

  predicate NoNewline(lines: seq<string>) {
    forall k :: 0 <= k < |lines| ==> '\n' !in lines[k]
  }

  lemma {:induction false} SplitJoinLines(lines: seq<string>)
    requires NoNewline(lines)
    ensures SplitLines(JoinLines(lines)) == lines
    decreases |lines|
  {
    if lines != [] {
      var t := JoinLines(lines);
      assert '\n' !in lines[0];
      IndexOfAfter(lines[0], '\n', JoinLines(lines[1..]));
      assert t == lines[0] + ['\n'] + JoinLines(lines[1..]);
      assert t[..|lines[0]|] == lines[0];
      assert t[|lines[0]| + 1..] == JoinLines(lines[1..]);
      SplitJoinLines(lines[1..]);
    }
  }

  lemma {:induction false} JoinLinesAppend(a: seq<string>, b: seq<string>)
    ensures JoinLines(a + b) == JoinLines(a) + JoinLines(b)
    decreases |a|
  {
    if a != [] {
      assert (a + b)[1..] == a[1..] + b;
      JoinLinesAppend(a[1..], b);
    } else {
      assert a + b == b;
    }
  }

  predicate EndsWith(s: string, suffix: string) {
    |suffix| <= |s| && s[|s| - |suffix|..] == suffix
  }

  /** Two suffixes that end in different characters exclude each other. */
  lemma EndsWithExclusive(s: string, x: string, y: string)
    requires |x| > 0 && |y| > 0 && x[|x| - 1] != y[|y| - 1]
    requires EndsWith(s, x)
    ensures !EndsWith(s, y)
  {
    assert s[|s| - 1] == x[|x| - 1];
  }

  lemma EndsWithAppend(a: string, suffix: string)
    ensures EndsWith(a + suffix, suffix)
  {
    assert (a + suffix)[|a|..] == suffix;
  }

  lemma SliceAfter<T>(a: seq<T>, b: seq<T>, i: nat, j: nat)
    requires |a| <= i <= j <= |a| + |b|
    ensures (a + b)[i..j] == b[i - |a|..j - |a|]
  {
  }

  /** The blocks, one after the other. */
  function Flatten<T>(blocks: seq<seq<T>>): seq<T>
    decreases |blocks|
  {
    if blocks == [] then [] else blocks[0] + Flatten(blocks[1..])
  }

  predicate Uniform<T>(blocks: seq<seq<T>>, n: nat) {
    forall i :: 0 <= i < |blocks| ==> |blocks[i]| == n
  }

  /** Blocks of one size n: the whole is n times as long, and block k sits at offset k * n. */
  lemma {:induction false} FlattenSlice<T>(blocks: seq<seq<T>>, n: nat, k: nat)
    requires Uniform(blocks, n) && k < |blocks|
    ensures |Flatten(blocks)| == |blocks| * n
    ensures (k + 1) * n <= |Flatten(blocks)|
    ensures Flatten(blocks)[k * n..(k + 1) * n] == blocks[k]
    decreases k
  {
    FlattenLength(blocks, n);
    var rest := Flatten(blocks[1..]);
    assert Flatten(blocks) == blocks[0] + rest;
    if k == 0 {
      assert (blocks[0] + rest)[..n] == blocks[0];
    } else {
      FlattenSlice(blocks[1..], n, k - 1);
      assert blocks[1..][k - 1] == blocks[k];
      assert k * n == n + (k - 1) * n && (k + 1) * n == n + k * n;
      SliceAfter(blocks[0], rest, k * n, (k + 1) * n);
    }
  }

  lemma {:induction false} FlattenLength<T>(blocks: seq<seq<T>>, n: nat)
    requires Uniform(blocks, n)
    ensures |Flatten(blocks)| == |blocks| * n
    decreases |blocks|
  {
    if blocks != [] {
      FlattenLength(blocks[1..], n);
      assert |blocks| * n == n + (|blocks| - 1) * n;
    }
  }

  /** How many times `x` occurs in `s`. */
  function Occurrences<T(==)>(s: seq<T>, x: T): nat
    decreases |s|
  {
    if s == [] then 0 else (if s[0] == x then 1 else 0) + Occurrences(s[1..], x)
  }

  lemma {:induction false} OccurrencesAppend<T>(a: seq<T>, b: seq<T>, x: T)
    ensures Occurrences(a + b, x) == Occurrences(a, x) + Occurrences(b, x)
    decreases |a|
  {
    if a == [] {
      assert a + b == b;
    } else {
      assert (a + b)[1..] == a[1..] + b;
      OccurrencesAppend(a[1..], b, x);
    }
  }

  /** Blocks holding `x` m times each hold it |blocks| * m times together. */
  lemma {:induction false} OccurrencesFlatten<T>(blocks: seq<seq<T>>, x: T, m: nat)
    requires forall i :: 0 <= i < |blocks| ==> Occurrences(blocks[i], x) == m
    ensures Occurrences(Flatten(blocks), x) == |blocks| * m
    decreases |blocks|
  {
    if blocks != [] {
      OccurrencesFlatten(blocks[1..], x, m);
      OccurrencesAppend(blocks[0], Flatten(blocks[1..]), x);
      assert |blocks| * m == m + (|blocks| - 1) * m;
    }
  }

  lemma {:induction false} OccurrencesAbsent<T>(s: seq<T>, x: T)
    ensures (Occurrences(s, x) == 0) <==> (x !in s)
    decreases |s|
  {
    if s != [] {
      OccurrencesAbsent(s[1..], x);
      assert s == [s[0]] + s[1..];
    }
  }
}
