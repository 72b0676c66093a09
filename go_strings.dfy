/** The parts of Go's `strings` and `fmt` packages that the core relies on:
    `strings.Index`, `strings.Contains`, `strings.Split` (for a non-empty
    separator) and the `%d` verb. Each is given by a recursive definition
    that follows the Go algorithm, and is tied by lemmas to an independent
    description (first occurrence, join round trip, parse round trip). */
module GoStrings {
  import opened Outcomes

  /** `sep` occurs in `s` starting at index `i`. */
  predicate OccursAt(s: string, sep: string, i: int)
  {
    0 <= i && i + |sep| <= |s| && s[i..i + |sep|] == sep
  }

  /** Occurrences in `s[1..]` are the occurrences in `s` shifted by one. */
  lemma OccursShift(s: string, sep: string)
    requires |s| >= 1
    ensures forall j :: 1 <= j <= |s| ==> (OccursAt(s, sep, j) <==> OccursAt(s[1..], sep, j - 1))
  {
    forall j | 1 <= j <= |s|
      ensures OccursAt(s, sep, j) <==> OccursAt(s[1..], sep, j - 1)
    {
      if j + |sep| <= |s| {
        assert s[1..][j - 1..j - 1 + |sep|] == s[j..j + |sep|];
      }
    }
  }

  /** Go's `strings.Index(s, sep)`: the first index at which `sep` occurs
      in `s`, or None where Go returns -1. */
  function IndexOf(s: string, sep: string): (r: Option<nat>)
    ensures r.Some? ==> OccursAt(s, sep, r.value)
    ensures r.Some? ==> forall j :: 0 <= j < r.value ==> !OccursAt(s, sep, j)
    ensures r.None? ==> forall j :: 0 <= j <= |s| ==> !OccursAt(s, sep, j)
    decreases |s|
  {
    if |s| < |sep| then None
    else if s[..|sep|] == sep then Some(0)
    else
      var rest := IndexOf(s[1..], sep);
      OccursShift(s, sep);
      if rest.None? then None else Some(rest.value + 1)
  }

  /** An occurrence with none before it is the one `IndexOf` finds. */
  lemma IndexOfFirst(s: string, sep: string, i: nat)
    requires OccursAt(s, sep, i)
    requires forall j :: 0 <= j < i ==> !OccursAt(s, sep, j)
    ensures IndexOf(s, sep) == Some(i)
  {
  }

  /** `IndexOf` where the character at offset `k` of `sep` is missing at
      every earlier start: the occurrence at `i` is the first. */
  lemma IndexOfByChar(s: string, sep: string, i: nat, k: nat)
    requires k < |sep| && OccursAt(s, sep, i)
    requires forall j :: 0 <= j < i ==> s[k..][j] != sep[k]
    ensures IndexOf(s, sep) == Some(i)
  {
    forall j | 0 <= j < i
      ensures !OccursAt(s, sep, j)
    {
      assert s[k..][j] == s[j + k];
      if j + |sep| <= |s| {
        assert s[j..j + |sep|][k] == s[j + k];
      }
    }
    IndexOfFirst(s, sep, i);
  }

  /** `IndexOf` of a separator whose first character does not occur. */
  lemma IndexOfMissingChar(s: string, sep: string)
    requires |sep| >= 1
    requires forall j :: 0 <= j < |s| ==> s[j] != sep[0]
    ensures IndexOf(s, sep) == None
  {
    forall j | 0 <= j <= |s|
      ensures !OccursAt(s, sep, j)
    {
      if j + |sep| <= |s| {
        assert s[j..j + |sep|][0] == s[j];
      }
    }
  }

  /** `c` does not occur in `s`. */
  predicate Lacks(s: string, c: char)
  {
    forall j :: 0 <= j < |s| ==> s[j] != c
  }

  /** A prefix in which the first character of `sep` does not occur holds no
      start of an occurrence: `IndexOf` looks past it. */
  lemma {:induction false} IndexOfSkip(a: string, b: string, sep: string)
    requires |sep| >= 1 && Lacks(a, sep[0])
    ensures IndexOf(a + b, sep) == (if IndexOf(b, sep).Some? then Some(|a| + IndexOf(b, sep).value) else None)
    decreases |a|
  {
    if a == [] {
      assert a + b == b;
    } else if |a + b| >= |sep| {
      assert (a + b)[..|sep|][0] == a[0];
      assert (a + b)[1..] == a[1..] + b;
      IndexOfSkip(a[1..], b, sep);
    }
  }

  /** Go's `strings.Contains(s, sub)`, which is `strings.Index(s, sub) >= 0`. */
  predicate Contains(s: string, sub: string)
  {
    IndexOf(s, sub).Some?
  }

  lemma ContainsIff(s: string, sub: string)
    ensures Contains(s, sub) <==> exists j :: OccursAt(s, sub, j)
  {
    if Contains(s, sub) {
      assert OccursAt(s, sub, IndexOf(s, sub).value);
    }
  }

  /** An occurrence inside a prefix is an occurrence in the whole string. */
  lemma OccursInPrefix(s: string, k: nat, sep: string, j: int)
    requires k <= |s|
    requires OccursAt(s[..k], sep, j)
    ensures OccursAt(s, sep, j)
  {
    assert s[..k][j..j + |sep|] == s[j..j + |sep|];
  }

  /** A prefix of a string without `sep` is without `sep`. */
  lemma PrefixExcludes(s: string, k: nat, sep: string)
    requires k <= |s|
    requires !Contains(s, sep)
    ensures !Contains(s[..k], sep)
  {
    if Contains(s[..k], sep) {
      OccursInPrefix(s, k, sep, IndexOf(s[..k], sep).value);
    }
  }

  /** The text of `s` before the first `sep`, or all of `s`. This is element 0
      of `strings.Split(s, sep)`. */
  function Before(s: string, sep: string): string
  {
    match IndexOf(s, sep)
    case None => s
    case Some(i) => s[..i]
  }

  /** The text of `s` after the first `sep`, or "" when there is none. */
  function After(s: string, sep: string): string
  {
    match IndexOf(s, sep)
    case None => ""
    case Some(i) => s[i + |sep|..]
  }

  /** `Before(s, sep)` is the longest prefix of `s` without `sep` that is
      followed by `sep` or by the end of `s`. */
  lemma {:induction false} BeforeSpec(s: string, sep: string)
    requires sep != []
    ensures Before(s, sep) <= s
    ensures !Contains(Before(s, sep), sep)
    ensures Contains(s, sep) ==> OccursAt(s, sep, |Before(s, sep)|)
    ensures !Contains(s, sep) ==> Before(s, sep) == s
  {
    match IndexOf(s, sep)
    case None =>
    case Some(i) =>
      var b := s[..i];
      if Contains(b, sep) {
        var j := IndexOf(b, sep).value;
        OccursInPrefix(s, i, sep, j);
      }
  }

  /** `s` is `Before(s, sep)`, then `sep`, then `After(s, sep)` when `sep`
      occurs in it. */
  lemma BeforeAfter(s: string, sep: string)
    requires Contains(s, sep)
    ensures s == Before(s, sep) + sep + After(s, sep)
  {
    var i := IndexOf(s, sep).value;
    assert s == s[..i] + s[i..i + |sep|] + s[i + |sep|..];
  }

  /** A text that starts with `sep` has it at index 0. */
  lemma IndexOfAtStart(sep: string, b: string)
    requires sep != []
    ensures IndexOf(sep + b, sep) == Some(0)
    ensures Before(sep + b, sep) == [] && After(sep + b, sep) == b
  {
    assert (sep + b)[..|sep|] == sep;
    assert (sep + b)[|sep|..] == b;
  }

  /** In front of a text, a prefix without the first character of `sep`
      belongs wholly to the text before the first `sep`. */
  lemma BeforeSkip(a: string, b: string, sep: string)
    requires |sep| >= 1 && Lacks(a, sep[0])
    ensures Before(a + b, sep) == a + Before(b, sep)
  {
    IndexOfSkip(a, b, sep);
    var r := IndexOf(b, sep);
    if r.Some? {
      assert (a + b)[..|a| + r.value] == a + b[..r.value];
    }
  }

  /** ... and the text after the first `sep` is that of the text alone. */
  lemma AfterSkip(a: string, b: string, sep: string)
    requires |sep| >= 1 && Lacks(a, sep[0])
    ensures After(a + b, sep) == After(b, sep)
  {
    IndexOfSkip(a, b, sep);
    var r := IndexOf(b, sep);
    if r.Some? {
      assert (a + b)[|a| + r.value + |sep|..] == b[r.value + |sep|..];
    }
  }

  /** A character occurs in neither part exactly when it occurs in neither
      half of their concatenation. */
  lemma LacksConcat(a: string, b: string, c: char)
    ensures Lacks(a + b, c) <==> Lacks(a, c) && Lacks(b, c)
  {
    if Lacks(a + b, c) {
      forall j | 0 <= j < |a| ensures a[j] != c {
        assert (a + b)[j] == a[j];
      }
      forall j | 0 <= j < |b| ensures b[j] != c {
        assert (a + b)[|a| + j] == b[j];
      }
    }
  }

  /** Go's `strings.Split(s, sep)` for a non-empty separator: the pieces of
      `s` around every non-overlapping occurrence of `sep`, left to right. */
  function Split(s: string, sep: string): (parts: seq<string>)
    requires sep != []
    ensures |parts| >= 1
    decreases |s|
  {
    match IndexOf(s, sep)
    case None => [s]
    case Some(i) => [s[..i]] + Split(s[i + |sep|..], sep)
  }

  /** A first piece without the first character of `sep`, cut off by `sep`. */
  lemma SplitSkip(a: string, b: string, sep: string)
    requires |sep| >= 1 && Lacks(a, sep[0])
    ensures Split(a + (sep + b), sep) == [a] + Split(b, sep)
  {
    var s := a + (sep + b);
    IndexOfAtStart(sep, b);
    IndexOfSkip(a, sep + b, sep);
    assert IndexOf(s, sep) == Some(|a|);
    assert s[..|a|] == a;
    assert s[|a| + |sep|..] == b;
  }

  /** Go's `strings.Join(parts, sep)`. */
  function Join(parts: seq<string>, sep: string): string
  {
    if |parts| == 0 then ""
    else if |parts| == 1 then parts[0]
    else parts[0] + sep + Join(parts[1..], sep)
  }

  lemma JoinCons(a: string, rest: seq<string>, sep: string)
    requires |rest| >= 1
    ensures Join([a] + rest, sep) == a + sep + Join(rest, sep)
  {
    assert ([a] + rest)[1..] == rest;
  }

  /** Joining the pieces of a split with its separator gives back the input. */
  lemma {:induction false} SplitJoin(s: string, sep: string)
    requires sep != []
    ensures Join(Split(s, sep), sep) == s
    decreases |s|
  {
    if Contains(s, sep) {
      var i := IndexOf(s, sep).value;
      var tail := s[i + |sep|..];
      SplitJoin(tail, sep);
      var rest := Split(tail, sep);
      assert Split(s, sep) == [s[..i]] + rest;
      JoinCons(s[..i], rest, sep);
      BeforeAfter(s, sep);
    }
  }

  /** No piece of a split contains the separator. */
  lemma {:induction false} SplitPiecesExclude(s: string, sep: string)
    requires sep != []
    ensures forall k :: 0 <= k < |Split(s, sep)| ==> !Contains(Split(s, sep)[k], sep)
    decreases |s|
  {
    BeforeSpec(s, sep);
    match IndexOf(s, sep)
    case None =>
    case Some(i) =>
      var tail := s[i + |sep|..];
      SplitPiecesExclude(tail, sep);
      assert Split(s, sep) == [s[..i]] + Split(tail, sep);
  }

  /** A split has more than one piece exactly when the separator occurs,
      and its first two pieces are the text before the first occurrence and
      the text between the first and the second occurrence. */
  lemma SplitHead(s: string, sep: string)
    requires sep != []
    ensures Split(s, sep)[0] == Before(s, sep)
    ensures |Split(s, sep)| > 1 <==> Contains(s, sep)
    ensures Contains(s, sep) ==> Split(s, sep)[1] == Before(After(s, sep), sep)
  {
    match IndexOf(s, sep)
    case None =>
    case Some(i) =>
      var tail := s[i + |sep|..];
      assert Split(s, sep) == [s[..i]] + Split(tail, sep);
      assert Split(tail, sep)[0] == Before(tail, sep);
  }

  // ---- The `%d` verb of package fmt ----

  function DigitChar(d: nat): (c: char)
    requires d < 10
    ensures '0' <= c <= '9'
  {
    (('0' as int) + d) as char
  }

  function DigitValue(c: char): (d: nat)
    requires '0' <= c <= '9'
    ensures d < 10 && DigitChar(d) == c
  {
    (c as int) - ('0' as int)
  }

  predicate IsDigits(s: string)
  {
    forall k :: 0 <= k < |s| ==> '0' <= s[k] <= '9'
  }

  /** The decimal digits of `n`, most significant first, with no leading zero. */
  function FormatNat(n: nat): (s: string)
    ensures |s| >= 1 && IsDigits(s)
    ensures s[0] == '0' ==> n == 0
    decreases n
  {
    if n < 10 then [DigitChar(n)] else FormatNat(n / 10) + [DigitChar(n % 10)]
  }

  /** `fmt.Sprintf("%d", n)`: a minus sign for a negative `n`, then its digits. */
  function FormatInt(n: int): (s: string)
    ensures |s| >= 1 && (s[0] == '-' <==> n < 0)
    ensures n >= 0 ==> IsDigits(s)
  {
    if n < 0 then "-" + FormatNat(-n) else FormatNat(n)
  }

  /** The value of a string of decimal digits. */
  function ParseNat(s: string): nat
    requires IsDigits(s)
    decreases |s|
  {
    if s == [] then 0 else ParseNat(s[..|s| - 1]) * 10 + DigitValue(s[|s| - 1])
  }

  /** Reading back the digits of `n` gives `n`. */
  lemma {:induction false} ParseFormatNat(n: nat)
    ensures ParseNat(FormatNat(n)) == n
    decreases n
  {
    if n >= 10 {
      ParseFormatNat(n / 10);
      var s := FormatNat(n);
      assert s[..|s| - 1] == FormatNat(n / 10);
    }
  }

  lemma FormatNatInjective(a: nat, b: nat)
    requires FormatNat(a) == FormatNat(b)
    ensures a == b
  {
    ParseFormatNat(a);
    ParseFormatNat(b);
  }

  /** Distinct integers print differently under `%d`. */
  lemma FormatIntInjective(a: int, b: int)
    requires FormatInt(a) == FormatInt(b)
    ensures a == b
  {
    var s := FormatInt(a);
    if a < 0 {
      assert s[0] == '-';
    } else {
      assert '0' <= s[0] <= '9';
    }
    if a < 0 && b < 0 {
      assert FormatNat(-a) == s[1..] == FormatNat(-b);
      FormatNatInjective(-a, -b);
    } else if a >= 0 && b >= 0 {
      FormatNatInjective(a, b);
    }
  }
}
