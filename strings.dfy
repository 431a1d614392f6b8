/** The handful of Python `str` operations the worker relies on, stated over `seq<char>`:
    ASCII lower-casing, `find`/`in`, `replace(old, new, 1)`, `strip`, `rfind`, integer
    formatting with zero padding, and the code-point order that `sorted` uses. */
module Strings {
  import opened Wrappers

  // ---------------------------------------------------------------- case

  function LowerChar(c: char): char {
    if 'A' <= c <= 'Z' then (c as int + 32) as char else c
  }

  /** `str.lower()` on the ASCII letters. Every comparison the worker makes after lowering
      is against an ASCII word ("oshash", "<svg"), and no non-ASCII character lowers to an
      ASCII letter of those words, so the restriction does not change any outcome. */
  function Lower(s: string): (r: string)
    ensures |r| == |s|
    ensures forall i :: 0 <= i < |s| ==> r[i] == LowerChar(s[i])
  {
    seq(|s|, i requires 0 <= i < |s| => LowerChar(s[i]))
  }

  // ---------------------------------------------------------------- search

  predicate OccursAt(s: string, sub: string, i: nat) {
    i + |sub| <= |s| && s[i..i + |sub|] == sub
  }

  /** `s.find(sub, i)`: the least position at or after `i` where `sub` occurs. */
  function FindFrom(s: string, sub: string, i: nat): (r: Option<nat>)
    decreases |s| - i
    ensures r.Some? ==> i <= r.value && OccursAt(s, sub, r.value)
    ensures r.Some? ==> forall j: nat :: i <= j < r.value ==> !OccursAt(s, sub, j)
    ensures r.None? ==> forall j: nat :: i <= j ==> !OccursAt(s, sub, j)
  {
    if i + |sub| > |s| then None
    else if OccursAt(s, sub, i) then Some(i)
    else FindFrom(s, sub, i + 1)
  }

  function Find(s: string, sub: string): Option<nat> {
    FindFrom(s, sub, 0)
  }

  /** Python's `sub in s`. */
  predicate Contains(s: string, sub: string) {
    Find(s, sub).Some?
  }

  lemma ContainsIff(s: string, sub: string)
    ensures Contains(s, sub) <==> exists i: nat :: OccursAt(s, sub, i)
  {
    if !Contains(s, sub) {
      assert forall j: nat :: 0 <= j ==> !OccursAt(s, sub, j);
    }
  }

  /** A single character occurs exactly where it is found by index. */
  lemma ContainsChar(s: string, c: char)
    ensures Contains(s, [c]) <==> c in s
  {
    ContainsIff(s, [c]);
    if c in s {
      var i :| 0 <= i < |s| && s[i] == c;
      assert OccursAt(s, [c], i);
    }
    if Contains(s, [c]) {
      var i: nat :| OccursAt(s, [c], i);
      assert s[i..i + 1] == [c];
      assert s[i] == c;
    }
  }

  /** `s.replace(pattern, replacement, 1)`. An empty pattern occurs at 0, as in Python. */
  function ReplaceFirst(s: string, pattern: string, replacement: string): string {
    match Find(s, pattern)
    case None => s
    case Some(i) => s[..i] + replacement + s[i + |pattern|..]
  }

  /** What `replace(pattern, replacement, 1)` does, in terms of where `pattern` occurs: at
      most one occurrence, the first one, is substituted, and nothing else changes. */
  lemma ReplaceFirstSpec(s: string, pattern: string, replacement: string)
    ensures (forall j: nat :: !OccursAt(s, pattern, j)) ==> ReplaceFirst(s, pattern, replacement) == s
    ensures forall i: nat ::
      OccursAt(s, pattern, i) && (forall j: nat :: j < i ==> !OccursAt(s, pattern, j)) ==>
        ReplaceFirst(s, pattern, replacement) == s[..i] + replacement + s[i + |pattern|..]
  {
    match Find(s, pattern)
    case None =>
    case Some(k) =>
      forall i: nat | OccursAt(s, pattern, i) && (forall j: nat :: j < i ==> !OccursAt(s, pattern, j))
        ensures i == k
      {
      }
  }

  /** `rfind` over a set of characters: the last position holding one of `cs`. */
  function LastIndexOfAny(s: string, cs: set<char>): (r: Option<nat>)
    decreases |s|
    ensures r.Some? ==> r.value < |s| && s[r.value] in cs
    ensures r.Some? ==> forall j :: r.value < j < |s| ==> s[j] !in cs
    ensures r.None? ==> forall j :: 0 <= j < |s| ==> s[j] !in cs
  {
    if s == [] then None
    else if s[|s| - 1] in cs then Some(|s| - 1)
    else
      var r := LastIndexOfAny(s[..|s| - 1], cs);
      assert forall j :: 0 <= j < |s| - 1 ==> s[..|s| - 1][j] == s[j];
      r
  }

  /** `os.path.basename` on a POSIX path: the text after the last '/'. */
  function Basename(p: string): (r: string)
    ensures '/' !in r
    ensures exists k :: 0 <= k <= |p| && r == p[k..]
  {
    match LastIndexOfAny(p, {'/'})
    case None => assert p == p[0..]; p
    case Some(i) => p[i + 1..]
  }

  /** After a '/' closing `x`, nothing in a name without '/' is the last '/'. */
  lemma {:induction false} LastSlash(x: string, name: string)
    requires '/' !in name && |x| > 0 && x[|x| - 1] == '/'
    ensures LastIndexOfAny(x + name, {'/'}) == Some(|x| - 1)
    decreases |name|
  {
    if name == [] {
      assert x + name == x;
    } else {
      var s := x + name;
      var front := name[..|name| - 1];
      assert s[|s| - 1] == name[|name| - 1] && name[|name| - 1] in name;
      assert s[..|s| - 1] == x + front;
      assert '/' !in front by {
        forall c | c in front ensures c in name {
          var j :| 0 <= j < |front| && front[j] == c;
          assert name[j] == c;
        }
      }
      LastSlash(x, front);
    }
  }

  /** The basename of a path ending in a name without '/' is that name. */
  lemma BasenameOfName(x: string, name: string)
    requires '/' !in name && (x == "" || x[|x| - 1] == '/')
    ensures Basename(x + name) == name
  {
    if x == "" {
      assert x + name == name;
      assert forall j :: 0 <= j < |name| ==> name[j] in name;
    } else {
      LastSlash(x, name);
      assert (x + name)[|x|..] == name;
    }
  }

  predicate StartsWith(s: string, prefix: string) {
    |prefix| <= |s| && s[..|prefix|] == prefix
  }

  predicate EndsWith(s: string, suffix: string) {
    |suffix| <= |s| && s[|s| - |suffix|..] == suffix
  }

  function TrimStart(s: string, c: char): string
    decreases |s|
  {
    if |s| > 0 && s[0] == c then TrimStart(s[1..], c) else s
  }

  function TrimEnd(s: string, c: char): string
    decreases |s|
  {
    if |s| > 0 && s[|s| - 1] == c then TrimEnd(s[..|s| - 1], c) else s
  }

  /** `s.strip(c)`: every leading and trailing `c` removed. */
  function Strip(s: string, c: char): (r: string)
    ensures |r| <= |s|
    ensures |r| > 0 ==> r[0] != c && r[|r| - 1] != c
    ensures exists i, j :: 0 <= i <= j <= |s| && r == s[i..j] && (forall k :: 0 <= k < i ==> s[k] == c) &&
                              (forall k :: j <= k < |s| ==> s[k] == c)
  {
    StripBounds(s, c);
    TrimEnd(TrimStart(s, c), c)
  }

  lemma {:induction false} TrimStartBounds(s: string, c: char)
    ensures |TrimStart(s, c)| <= |s|
    ensures |TrimStart(s, c)| > 0 ==> TrimStart(s, c)[0] != c
    ensures exists k :: 0 <= k <= |s| && TrimStart(s, c) == s[k..] && forall j :: 0 <= j < k ==> s[j] == c
    decreases |s|
  {
    if |s| > 0 && s[0] == c {
      TrimStartBounds(s[1..], c);
      var k :| 0 <= k <= |s[1..]| && TrimStart(s[1..], c) == s[1..][k..] && forall j :: 0 <= j < k ==> s[1..][j] == c;
      assert s[1..][k..] == s[k + 1..];
      assert forall j :: 0 <= j < k + 1 ==> s[j] == c by {
        forall j | 0 <= j < k + 1 ensures s[j] == c {
          if j > 0 { assert s[j] == s[1..][j - 1]; }
        }
      }
    } else {
      assert s == s[0..];
    }
  }

  lemma {:induction false} TrimEndBounds(s: string, c: char)
    ensures |TrimEnd(s, c)| <= |s|
    ensures |TrimEnd(s, c)| > 0 ==> TrimEnd(s, c)[|TrimEnd(s, c)| - 1] != c
    ensures exists k :: 0 <= k <= |s| && TrimEnd(s, c) == s[..k] && forall j :: k <= j < |s| ==> s[j] == c
    decreases |s|
  {
    if |s| > 0 && s[|s| - 1] == c {
      TrimEndBounds(s[..|s| - 1], c);
      var k :| 0 <= k <= |s| - 1 && TrimEnd(s[..|s| - 1], c) == s[..|s| - 1][..k] &&
        forall j :: k <= j < |s| - 1 ==> s[j] == c;
      assert s[..|s| - 1][..k] == s[..k];
    } else {
      assert s == s[..|s|];
    }
  }

  lemma StripBounds(s: string, c: char)
    ensures |TrimEnd(TrimStart(s, c), c)| <= |s|
    ensures |TrimEnd(TrimStart(s, c), c)| > 0 ==>
      TrimEnd(TrimStart(s, c), c)[0] != c && TrimEnd(TrimStart(s, c), c)[|TrimEnd(TrimStart(s, c), c)| - 1] != c
    ensures exists i, j :: 0 <= i <= j <= |s| && TrimEnd(TrimStart(s, c), c) == s[i..j] && (forall k :: 0 <= k < i ==> s[k] == c) &&
                              (forall k :: j <= k < |s| ==> s[k] == c)
  {
    TrimStartBounds(s, c);
    TrimEndBounds(TrimStart(s, c), c);
    SliceOfSuffix(s, TrimStart(s, c), TrimEnd(TrimStart(s, c), c), c);
  }

  /** A prefix `u` of a suffix `t` of `s` is a slice of `s`; what was cut on either side is
      all `c` when what each cut removed was. */
  lemma SliceOfSuffix(s: string, t: string, u: string, c: char)
    requires exists i :: 0 <= i <= |s| && t == s[i..] && forall j :: 0 <= j < i ==> s[j] == c
    requires exists k :: 0 <= k <= |t| && u == t[..k] && forall j :: k <= j < |t| ==> t[j] == c
    ensures exists i, j :: 0 <= i <= j <= |s| && u == s[i..j] && (forall k :: 0 <= k < i ==> s[k] == c) &&
                              (forall k :: j <= k < |s| ==> s[k] == c)
  {
    var i :| 0 <= i <= |s| && t == s[i..] && forall j :: 0 <= j < i ==> s[j] == c;
    var k :| 0 <= k <= |t| && u == t[..k] && forall j :: k <= j < |t| ==> t[j] == c;
    assert u == s[i..i + k];
    forall j | i + k <= j < |s| ensures s[j] == c {
      assert s[j] == t[j - i];
    }
  }

  // ---------------------------------------------------------------- decimal text

  predicate IsDigit(c: char) {
    '0' <= c <= '9'
  }

  predicate AllDigits(s: string) {
    forall i :: 0 <= i < |s| ==> IsDigit(s[i])
  }

  function DigitChar(d: nat): (c: char)
    requires d < 10
    ensures IsDigit(c)
  {
    ('0' as int + d) as char
  }

  function DigitValue(c: char): (d: nat)
    requires IsDigit(c)
    ensures d < 10 && DigitChar(d) == c
  {
    c as int - '0' as int
  }

  /** `str(n)` for a non-negative integer. */
  function Decimal(n: nat): (r: string)
    ensures |r| >= 1 && AllDigits(r)
  {
    if n < 10 then [DigitChar(n)] else Decimal(n / 10) + [DigitChar(n % 10)]
  }

  /** The value of a string of decimal digits (`int(s)` on such a string). */
  function DigitsValue(s: string): nat
    requires AllDigits(s)
  {
    if s == [] then 0 else DigitsValue(s[..|s| - 1]) * 10 + DigitValue(s[|s| - 1])
  }

  lemma {:induction false} DecimalRoundTrip(n: nat)
    ensures DigitsValue(Decimal(n)) == n
  {
    if n >= 10 {
      var d := Decimal(n / 10);
      DecimalRoundTrip(n / 10);
      assert (d + [DigitChar(n % 10)])[..|d|] == d;
    }
  }

  function Zeros(k: nat): (r: string)
    ensures |r| == k && AllDigits(r)
  {
    if k == 0 then "" else "0" + Zeros(k - 1)
  }

  /** Python's `f"{n:0{width}}"` for `n >= 0`: the digits of `n`, with zeros in front up to
      `width` characters. A number wider than `width` is not truncated. */
  function ZeroPad(n: nat, width: nat): (r: string)
    ensures |r| == if |Decimal(n)| < width then width else |Decimal(n)|
    ensures AllDigits(r)
  {
    var d := Decimal(n);
    (if |d| < width then Zeros(width - |d|) else "") + d
  }

  lemma {:induction false} LeadingZerosValue(k: nat, d: string)
    requires AllDigits(d)
    ensures AllDigits(Zeros(k) + d) && DigitsValue(Zeros(k) + d) == DigitsValue(d)
    decreases |d|, k
  {
    if d == [] {
      assert Zeros(k) + d == Zeros(k);
      if k > 0 {
        ZerosSplit(k);
        LeadingZerosValue(k - 1, d);
        assert Zeros(k)[..k - 1] == Zeros(k - 1);
        assert Zeros(k - 1) + d == Zeros(k - 1);
      }
    } else {
      var init := d[..|d| - 1];
      LeadingZerosValue(k, init);
      assert (Zeros(k) + d)[..|Zeros(k) + d| - 1] == Zeros(k) + init;
    }
  }

  lemma {:induction false} ZerosSplit(k: nat)
    requires k > 0
    ensures Zeros(k) == Zeros(k - 1) + "0"
  {
    if k > 1 {
      ZerosSplit(k - 1);
    }
  }

  /** Zero padding does not change the value the digits denote. */
  lemma ZeroPadRoundTrip(n: nat, width: nat)
    ensures DigitsValue(ZeroPad(n, width)) == n
  {
    var d := Decimal(n);
    DecimalRoundTrip(n);
    if |d| < width {
      assert ZeroPad(n, width) == Zeros(width - |d|) + d;
      LeadingZerosValue(width - |d|, d);
    } else {
      assert ZeroPad(n, width) == d;
    }
  }

  /** Python's `f"{n:0{width}}"` for any integer: a minus sign for a negative number, then
      its magnitude zero-padded so that sign and digits together fill `width`. */
  function FormatInt(n: int, width: nat): string {
    if n < 0 then "-" + ZeroPad(-n, if width > 0 then width - 1 else 0) else ZeroPad(n, width)
  }

  /** `str(n)` / `f"{n}"` for an integer. */
  function IntToString(n: int): string {
    FormatInt(n, 0)
  }

  lemma ZeroPad2(n: nat)
    requires n < 100
    ensures ZeroPad(n, 2) == [DigitChar(n / 10), DigitChar(n % 10)]
  {
    if n >= 10 {
      assert Decimal(n) == Decimal(n / 10) + [DigitChar(n % 10)];
    }
  }

  lemma ZeroPad3(n: nat)
    requires n < 1000
    ensures ZeroPad(n, 3) == [DigitChar(n / 10 / 10), DigitChar(n / 10 % 10), DigitChar(n % 10)]
  {
    var t := n / 10;
    if n >= 100 {
      assert t >= 10 && t / 10 < 10;
      assert Decimal(t / 10) == [DigitChar(t / 10)];
      assert Decimal(t) == Decimal(t / 10) + [DigitChar(t % 10)];
      assert Decimal(n) == Decimal(t) + [DigitChar(n % 10)];
    } else if n >= 10 {
      assert t < 10 && t / 10 == 0 && t % 10 == t;
      assert Decimal(t) == [DigitChar(t)];
      assert Decimal(n) == Decimal(t) + [DigitChar(n % 10)];
      assert Zeros(1) == "0";
    } else {
      assert t == 0;
      assert Zeros(2) == "00";
    }
  }

  // ---------------------------------------------------------------- code-point order

  /** Python's `<` on strings: code point by code point, a proper prefix first. */
  predicate LexLess(a: string, b: string)
    decreases |a|
  {
    if |a| == 0 then |b| > 0
    else if |b| == 0 then false
    else if a[0] != b[0] then a[0] < b[0]
    else LexLess(a[1..], b[1..])
  }

  lemma {:induction false} LexIrreflexive(a: string)
    ensures !LexLess(a, a)
    decreases |a|
  {
    if |a| > 0 { LexIrreflexive(a[1..]); }
  }

  lemma {:induction false} LexTransitive(a: string, b: string, c: string)
    requires LexLess(a, b) && LexLess(b, c)
    ensures LexLess(a, c)
    decreases |a|
  {
    if |a| > 0 && |b| > 0 && |c| > 0 && a[0] == b[0] && b[0] == c[0] {
      LexTransitive(a[1..], b[1..], c[1..]);
    }
  }

  lemma {:induction false} LexTotal(a: string, b: string)
    requires a != b
    ensures LexLess(a, b) || LexLess(b, a)
    decreases |a|
  {
    if |a| > 0 && |b| > 0 && a[0] == b[0] {
      assert a == [a[0]] + a[1..] && b == [b[0]] + b[1..];
      LexTotal(a[1..], b[1..]);
    }
  }

  lemma LexAsymmetric(a: string, b: string)
    ensures !(LexLess(a, b) && LexLess(b, a))
  {
    if LexLess(a, b) && LexLess(b, a) {
      LexTransitive(a, b, a);
      LexIrreflexive(a);
    }
  }

  /** A common prefix does not decide the order. */
  lemma {:induction false} LexCommonPrefix(p: string, x: string, y: string)
    ensures LexLess(p + x, p + y) == LexLess(x, y)
    decreases |p|
  {
    if |p| > 0 {
      assert (p + x)[1..] == p[1..] + x && (p + y)[1..] == p[1..] + y;
      LexCommonPrefix(p[1..], x, y);
    } else {
      assert p + x == x && p + y == y;
    }
  }

  /** Between two strings of equal length, whatever follows does not decide the order. */
  lemma {:induction false} LexEqualLengthHead(a: string, b: string, q: string, r: string)
    requires |a| == |b| && LexLess(a, b)
    ensures LexLess(a + q, b + r)
    decreases |a|
  {
    if a[0] == b[0] {
      assert (a + q)[1..] == a[1..] + q && (b + r)[1..] == b[1..] + r;
      LexEqualLengthHead(a[1..], b[1..], q, r);
    }
  }

  /** Fixed-width zero-padded numbers sort as the numbers do (three digits). */
  lemma LexThreeDigits(p: nat, q: nat, r: nat, u: nat, v: nat, w: nat)
    requires p < 10 && q < 10 && r < 10 && u < 10 && v < 10 && w < 10
    requires p * 100 + q * 10 + r < u * 100 + v * 10 + w
    ensures LexLess([DigitChar(p), DigitChar(q), DigitChar(r)], [DigitChar(u), DigitChar(v), DigitChar(w)])
  {
    var a, b := [DigitChar(p), DigitChar(q), DigitChar(r)], [DigitChar(u), DigitChar(v), DigitChar(w)];
    assert a[1..] == [DigitChar(q), DigitChar(r)] && b[1..] == [DigitChar(v), DigitChar(w)];
    assert a[1..][1..] == [DigitChar(r)] && b[1..][1..] == [DigitChar(w)];
    assert a[1..][1..][1..] == [] && b[1..][1..][1..] == [];
  }

  lemma LexZeroPad3(i: nat, j: nat)
    requires i < j < 1000
    ensures LexLess(ZeroPad(i, 3), ZeroPad(j, 3))
  {
    ZeroPad3(i);
    ZeroPad3(j);
    var i1, i2, i3 := i / 10 / 10, i / 10 % 10, i % 10;
    var j1, j2, j3 := j / 10 / 10, j / 10 % 10, j % 10;
    assert i == (i / 10) * 10 + i3 && i / 10 == i1 * 10 + i2;
    assert j == (j / 10) * 10 + j3 && j / 10 == j1 * 10 + j2;
    assert i1 < 10 && j1 < 10;
    LexThreeDigits(i1, i2, i3, j1, j2, j3);
  }

  /** Names made of a fixed prefix, a three-digit zero-padded number and a fixed suffix
      sort as their numbers do, below 1000. */
  lemma PaddedNameOrder(prefix: string, suffix: string, i: nat, j: nat)
    requires i < j < 1000
    ensures LexLess(prefix + ZeroPad(i, 3) + suffix, prefix + ZeroPad(j, 3) + suffix)
  {
    LexZeroPad3(i, j);
    ZeroPad3(i);
    ZeroPad3(j);
    LexEqualLengthHead(ZeroPad(i, 3), ZeroPad(j, 3), suffix, suffix);
    LexCommonPrefix(prefix, ZeroPad(i, 3) + suffix, ZeroPad(j, 3) + suffix);
    assert prefix + ZeroPad(i, 3) + suffix == prefix + (ZeroPad(i, 3) + suffix);
    assert prefix + ZeroPad(j, 3) + suffix == prefix + (ZeroPad(j, 3) + suffix);
  }

  /** Such names are different for different numbers. */
  lemma PaddedNameInjective(prefix: string, suffix: string, i: nat, j: nat)
    requires prefix + ZeroPad(i, 3) + suffix == prefix + ZeroPad(j, 3) + suffix
    ensures i == j
  {
    var a, b := prefix + ZeroPad(i, 3) + suffix, prefix + ZeroPad(j, 3) + suffix;
    assert a[|prefix|..|a| - |suffix|] == ZeroPad(i, 3);
    assert b[|prefix|..|b| - |suffix|] == ZeroPad(j, 3);
    ZeroPadRoundTrip(i, 3);
    ZeroPadRoundTrip(j, 3);
  }

  // ---------------------------------------------------------------- sorted()

  predicate StrictlySorted(s: seq<string>)
    decreases |s|
  {
    |s| <= 1 || (LexLess(s[0], s[1]) && StrictlySorted(s[1..]))
  }

  /** A sequence whose every pair is in order is sorted. */
  lemma PairwiseSorted(s: seq<string>)
    requires forall i, j :: 0 <= i < j < |s| ==> LexLess(s[i], s[j])
    ensures StrictlySorted(s)
    decreases |s|
  {
    if |s| > 1 {
      PairwiseSorted(s[1..]);
    }
  }

  predicate NoDuplicates(s: seq<string>) {
    forall i, j :: 0 <= i < j < |s| ==> s[i] != s[j]
  }

  lemma {:induction false} SortedHeadLeast(s: seq<string>)
    requires StrictlySorted(s) && |s| > 0
    ensures forall j :: 1 <= j < |s| ==> LexLess(s[0], s[j])
    decreases |s|
  {
    if |s| > 1 {
      SortedHeadLeast(s[1..]);
      forall j | 2 <= j < |s| ensures LexLess(s[0], s[j]) {
        assert s[1..][j - 1] == s[j];
        LexTransitive(s[0], s[1], s[j]);
      }
    }
  }

  function Insert(x: string, s: seq<string>): seq<string>
    decreases |s|
  {
    if s == [] || !LexLess(s[0], x) then [x] + s else [s[0]] + Insert(x, s[1..])
  }

  /** Python's `sorted` on a list of strings (insertion sort; agrees with Python's on
      every input, see SortIsSorted and SortedUnique). */
  function Sort(s: seq<string>): seq<string>
    decreases |s|
  {
    if s == [] then [] else Insert(s[0], Sort(s[1..]))
  }

  lemma {:induction false} InsertPreservesOrder(x: string, t: seq<string>)
    requires StrictlySorted(t) && x !in t
    ensures StrictlySorted(Insert(x, t))
    ensures multiset(Insert(x, t)) == multiset(t) + multiset{x}
    ensures Insert(x, t)[0] == x || (|t| > 0 && Insert(x, t)[0] == t[0])
    decreases |t|
  {
    if t == [] {
    } else if !LexLess(t[0], x) {
      LexTotal(x, t[0]);
    } else {
      assert t == [t[0]] + t[1..];
      InsertPreservesOrder(x, t[1..]);
      var u := Insert(x, t[1..]);
      assert ([t[0]] + u)[1..] == u;
      if |t| > 1 {
        assert LexLess(t[0], t[1]);
      }
    }
  }

  /** `sorted` returns a strictly increasing rearrangement of a list without repeats. */
  lemma {:induction false} SortIsSorted(s: seq<string>)
    requires NoDuplicates(s)
    ensures StrictlySorted(Sort(s))
    ensures multiset(Sort(s)) == multiset(s)
    decreases |s|
  {
    if s != [] {
      assert s == [s[0]] + s[1..];
      SortIsSorted(s[1..]);
      forall k | 0 <= k < |s[1..]| ensures s[1..][k] != s[0] {
        assert s[1..][k] == s[k + 1];
      }
      assert s[0] !in multiset(s[1..]);
      InsertPreservesOrder(s[0], Sort(s[1..]));
    }
  }

  lemma HeadIsMember(b: seq<string>)
    ensures |b| > 0 ==> b[0] in b
  {
  }

  /** There is only one strictly increasing arrangement of a set of strings. */
  lemma {:induction false} SortedUnique(a: seq<string>, b: seq<string>)
    requires StrictlySorted(a) && StrictlySorted(b)
    requires forall x :: x in a <==> x in b
    ensures a == b
    decreases |a|
  {
    if a == [] {
      HeadIsMember(b);
    } else {
      assert a[0] in a;
      assert |b| > 0;
      SortedHeadLeast(a);
      SortedHeadLeast(b);
      assert b[0] in a;
      var k :| 0 <= k < |a| && a[k] == b[0];
      assert a[0] in b;
      var m :| 0 <= m < |b| && b[m] == a[0];
      LexAsymmetric(a[0], b[0]);
      assert a[0] == b[0];
      forall x ensures x in a[1..] <==> x in b[1..] {
        if x in a[1..] {
          var k :| 0 <= k < |a[1..]| && a[1..][k] == x;
          assert LexLess(a[0], a[k + 1]);
          LexIrreflexive(a[0]);
          assert x in b;
          var m :| 0 <= m < |b| && b[m] == x;
          assert m != 0;
          assert b[1..][m - 1] == x;
        }
        if x in b[1..] {
          var m :| 0 <= m < |b[1..]| && b[1..][m] == x;
          assert LexLess(b[0], b[m + 1]);
          LexIrreflexive(b[0]);
          assert x in a;
          var k :| 0 <= k < |a| && a[k] == x;
          assert k != 0;
          assert a[1..][k - 1] == x;
        }
      }
      SortedUnique(a[1..], b[1..]);
      assert a == [a[0]] + a[1..] && b == [b[0]] + b[1..];
    }
  }

  /** Sorting a list that is already strictly increasing leaves it as it is, and sorting any
      repeat-free listing of the same names gives that list. */
  lemma SortOfSortedListing(listing: seq<string>, sorted: seq<string>)
    requires NoDuplicates(listing) && StrictlySorted(sorted)
    requires forall x :: x in listing <==> x in sorted
    ensures Sort(listing) == sorted
  {
    SortIsSorted(listing);
    forall x ensures x in Sort(listing) <==> x in sorted {
      assert x in Sort(listing) <==> x in multiset(Sort(listing));
      assert x in listing <==> x in multiset(listing);
    }
    SortedUnique(Sort(listing), sorted);
  }

  lemma {:induction false} InsertMembers(x: string, t: seq<string>)
    ensures multiset(Insert(x, t)) == multiset(t) + multiset{x}
    decreases |t|
  {
    if t != [] && LexLess(t[0], x) {
      assert t == [t[0]] + t[1..];
      InsertMembers(x, t[1..]);
    }
  }

  /** `sorted` keeps every element, repeats included. */
  lemma {:induction false} SortMembers(s: seq<string>)
    ensures multiset(Sort(s)) == multiset(s)
    ensures forall x :: x in Sort(s) <==> x in s
    decreases |s|
  {
    if s != [] {
      assert s == [s[0]] + s[1..];
      SortMembers(s[1..]);
      InsertMembers(s[0], Sort(s[1..]));
    }
    forall x ensures x in Sort(s) <==> x in s {
      assert x in Sort(s) <==> x in multiset(Sort(s));
      assert x in s <==> x in multiset(s);
    }
  }

  /** Two repeat-free listings of the same names sort to the same list, so the order in which
      a directory is listed never shows after `sorted`. */
  lemma SortListingIndependent(a: seq<string>, b: seq<string>)
    requires NoDuplicates(a) && NoDuplicates(b)
    requires forall x :: x in a <==> x in b
    ensures Sort(a) == Sort(b)
  {
    SortIsSorted(b);
    SortMembers(b);
    SortOfSortedListing(a, Sort(b));
  }

  /** `[n for n in names if n.endswith(suffix)]` */
  function EndingWith(names: seq<string>, suffix: string): (r: seq<string>)
    ensures forall x :: x in r <==> x in names && EndsWith(x, suffix)
    ensures |r| <= |names|
    decreases |names|
  {
    if names == [] then []
    else (if EndsWith(names[0], suffix) then [names[0]] else []) + EndingWith(names[1..], suffix)
  }

  /** The filter keeps the order of the list: filtering a concatenation filters each part. */
  lemma {:induction false} EndingWithAppend(a: seq<string>, b: seq<string>, suffix: string)
    ensures EndingWith(a + b, suffix) == EndingWith(a, suffix) + EndingWith(b, suffix)
    decreases |a|
  {
    if a != [] {
      assert (a + b)[0] == a[0];
      assert (a + b)[1..] == a[1..] + b;
      EndingWithAppend(a[1..], b, suffix);
    } else {
      assert a + b == b;
    }
  }

  /** Filtering a list whose every element passes leaves it as it is. */
  lemma {:induction false} EndingWithAll(names: seq<string>, suffix: string)
    requires forall i :: 0 <= i < |names| ==> EndsWith(names[i], suffix)
    ensures EndingWith(names, suffix) == names
    decreases |names|
  {
    if names != [] {
      EndingWithAll(names[1..], suffix);
    }
  }

  // ---------------------------------------------------------------- writing in order

  /** The strings a sequence holds. */
  function Members(s: seq<string>): (r: set<string>)
    ensures forall x :: x in r <==> x in s
  {
    set x | x in s
  }

  lemma FirstMember(s: seq<string>)
    requires |s| > 0
    ensures s[0] in s
  {
  }

  lemma MembersSnoc(s: seq<string>, x: string)
    ensures Members(s + [x]) == Members(s) + {x}
  {
  }

  /** `a` begins `b`. */
  predicate IsPrefix(a: string, b: string) {
    |a| <= |b| && b[..|a|] == a
  }

  lemma PrefixOfAppend(a: string, x: string)
    ensures IsPrefix(a, a + x)
  {
    assert (a + x)[..|a|] == a;
  }

  lemma PrefixTransitive(a: string, b: string, c: string)
    requires IsPrefix(a, b) && IsPrefix(b, c)
    ensures IsPrefix(a, c)
  {
    assert c[..|a|] == c[..|b|][..|a|];
  }

  /** Taking a prefix of a sequence that had one element appended. */
  lemma TakeSnoc<T>(a: seq<T>, x: T, i: nat)
    requires i <= |a|
    ensures (a + [x])[..i] == a[..i] && (a + [x])[..|a|] == a && (a + [x])[|a|] == x
  {
  }

  /** The text of several writes to one file, in the order they were made. */
  function Concat(parts: seq<string>): string
    decreases |parts|
  {
    if parts == [] then "" else Concat(parts[..|parts| - 1]) + parts[|parts| - 1]
  }

  /** What the first i+1 writes produced is a prefix of the whole text, ending with write i. */
  lemma {:induction false} ConcatPrefix(parts: seq<string>, i: nat)
    requires i < |parts|
    ensures Concat(parts[..i + 1]) == Concat(parts[..i]) + parts[i]
    ensures |Concat(parts[..i + 1])| <= |Concat(parts)|
    ensures Concat(parts)[..|Concat(parts[..i + 1])|] == Concat(parts[..i + 1])
    decreases |parts|
  {
    assert parts[..i + 1][..i] == parts[..i];
    if i + 1 == |parts| {
      assert parts[..i + 1] == parts;
    } else {
      var init := parts[..|parts| - 1];
      ConcatPrefix(init, i);
      assert init[..i + 1] == parts[..i + 1] && init[..i] == parts[..i];
      assert Concat(parts) == Concat(init) + parts[|parts| - 1];
    }
  }
}
