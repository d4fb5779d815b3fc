/** Sequence and string operations of Python that the three components rely on:
    slicing (`s[:n]`, `s[:-k]`), `sep.join(parts)`, `s.split(c)` and `str(n)`
    for a natural number. Python strings are sequences of code points, as
    Dafny strings are. */
module Base {

  datatype Option<+T> = None | Some(value: T)

  function Min(a: int, b: int): int
  {
    if a <= b then a else b
  }

  /** Python `s[:n]` for `n >= 0`: the first `n` elements, or all of `s`. */
  function Take<T>(s: seq<T>, n: nat): (r: seq<T>)
    ensures |r| == Min(n, |s|)
    ensures r <= s
  {
    if n <= |s| then s[..n] else s
  }

  /** Python `s[:-k]` for `k > 0`: all but the last `k` elements, or nothing
      when `s` is shorter than `k`. */
  function DropLast<T>(s: seq<T>, k: nat): (r: seq<T>)
    ensures |r| == if |s| >= k then |s| - k else 0
    ensures r <= s
  {
    if |s| >= k then s[..|s| - k] else []
  }

  /** Python `s[:n] + "..."`: the first `n` characters and an ellipsis, which
      is added even when nothing was cut. */
  function Ellipsized(s: string, n: nat): (r: string)
    ensures |r| == Min(n, |s|) + 3
    ensures r[..|r| - 3] <= s && r[|r| - 3..] == "..."
    ensures |s| <= n ==> r == s + "..."
  {
    Take(s, n) + "..."
  }

  /** Python `sep.join(parts)`. */
  function Join(sep: string, parts: seq<string>): string
    decreases |parts|
  {
    if |parts| == 0 then ""
    else if |parts| == 1 then parts[0]
    else Join(sep, parts[..|parts| - 1]) + sep + parts[|parts| - 1]
  }

  /** Index of the last occurrence of `c` in `s`, as Python's `s.rfind(c)`. */
  function LastIndex(s: string, c: char): (r: Option<nat>)
    ensures r.None? <==> c !in s
    ensures r.Some? ==> r.value < |s| && s[r.value] == c && c !in s[r.value + 1..]
  {
    if s == [] then None
    else if s[|s| - 1] == c then Some(|s| - 1)
    else
      assert s == s[..|s| - 1] + [s[|s| - 1]];
      var r := LastIndex(s[..|s| - 1], c);
      assert r.Some? ==> s[r.value + 1..] == s[..|s| - 1][r.value + 1..] + [s[|s| - 1]];
      r
  }

  /** The last occurrence is the one with no occurrence after it. */
  lemma LastIndexAt(s: string, c: char, j: nat)
    requires j < |s| && s[j] == c && c !in s[j + 1..]
    ensures LastIndex(s, c) == Some(j)
  {
    assert s[j] in s;
  }

  /** Python `s.split(c)` for a one-character separator: the pieces between
      the occurrences of `c`, from left to right; always at least one. It is
      built from the right, so the pieces before the last one are the split
      of the text before the last separator. */
  function Split(s: string, c: char): (r: seq<string>)
    ensures |r| >= 1
    ensures forall k :: 0 <= k < |r| ==> c !in r[k]
    decreases |s|
  {
    match LastIndex(s, c)
    case None => [s]
    case Some(j) => Split(s[..j], c) + [s[j + 1..]]
  }

  /** Joining the pieces of a split with the separator gives back the text. */
  lemma {:induction false} JoinSplit(s: string, c: char)
    ensures Join([c], Split(s, c)) == s
    decreases |s|
  {
    match LastIndex(s, c)
    case None =>
    case Some(j) =>
      var front := Split(s[..j], c);
      var parts := front + [s[j + 1..]];
      assert parts[..|parts| - 1] == front;
      JoinSplit(s[..j], c);
      assert s == s[..j] + [c] + s[j + 1..];
  }

  /** The pieces other than the last are those of the text before the last
      separator; with no separator there are none. */
  lemma SplitFront(s: string, c: char)
    ensures var parts := Split(s, c);
      parts[..|parts| - 1] == match LastIndex(s, c)
                              case None => []
                              case Some(j) => Split(s[..j], c)
  {
    match LastIndex(s, c)
    case None =>
    case Some(j) =>
      var parts := Split(s, c);
      assert parts == Split(s[..j], c) + [s[j + 1..]];
  }

  predicate IsDigit(c: char)
  {
    '0' <= c <= '9'
  }

  predicate AllDigits(s: string)
  {
    forall k :: 0 <= k < |s| ==> IsDigit(s[k])
  }

  function DigitChar(d: nat): (c: char)
    requires d < 10
    ensures IsDigit(c) && c as int - '0' as int == d
  {
    (d + '0' as int) as char
  }

  /** Python `str(n)` for `n >= 0`: decimal digits without leading zeros. */
  function NatToString(n: nat): (r: string)
    ensures |r| >= 1 && AllDigits(r)
    ensures r[0] == '0' <==> n == 0
    ensures n < 10 <==> |r| == 1
    decreases n
  {
    if n < 10 then [DigitChar(n)] else NatToString(n / 10) + [DigitChar(n % 10)]
  }

  /** The number a string of decimal digits denotes, as Python's `int(s)`. */
  function DecimalValue(s: string): nat
    requires AllDigits(s)
    decreases |s|
  {
    if s == [] then 0
    else DecimalValue(s[..|s| - 1]) * 10 + (s[|s| - 1] as int - '0' as int)
  }

  /** `str(n)` is read back as `n`. */
  lemma {:induction false} DecimalValueOfNatToString(n: nat)
    ensures DecimalValue(NatToString(n)) == n
    decreases n
  {
    var s := NatToString(n);
    if n >= 10 {
      assert s[..|s| - 1] == NatToString(n / 10);
      DecimalValueOfNatToString(n / 10);
    } else {
      assert s[..|s| - 1] == [];
    }
  }

  /** Distinct numbers have distinct decimal strings, so the printed number
      identifies its position. */
  lemma NatToStringInjective(m: nat, n: nat)
    requires NatToString(m) == NatToString(n)
    ensures m == n
  {
    DecimalValueOfNatToString(m);
    DecimalValueOfNatToString(n);
  }
}
