/**
  The pieces of the Python runtime that the contrast fetchers of
  `cogspaces/datasets/contrasts.py` lean on: slicing with negative and
  out-of-range bounds, `int()` on a string, and `os.path.split` /
  `os.path.join` on POSIX paths.
*/
module PyText {
  import opened Wrappers

  // ---------------------------------------------------------------------------
  // s[start:stop]

  /** How a slice bound is brought into `[0, n]`: negatives count from the end. */
  function Adjust(i: int, n: nat): (k: nat)
    ensures k <= n
    ensures 0 <= i <= n ==> k == i
    ensures -(n as int) <= i < 0 ==> k as int == n as int + i
  {
    if i < 0 then (if i + n < 0 then 0 else i + n) else if i > n then n else i
  }

  /** `s[start:stop]`, a missing bound standing for the start or the end. */
  function PySlice<T>(s: seq<T>, start: Option<int>, stop: Option<int>): (r: seq<T>)
    ensures |r| <= |s|
  {
    var lo := if start.Some? then Adjust(start.value, |s|) else 0;
    var hi := if stop.Some? then Adjust(stop.value, |s|) else |s|;
    if lo < hi then s[lo..hi] else []
  }

  /** `s[len(a):-len(c)]` on `a + b + c` gives back `b`, as long as `c` is not empty. */
  lemma SliceBetweenAffixes<T>(a: seq<T>, b: seq<T>, c: seq<T>)
    requires |c| > 0
    ensures PySlice(a + b + c, Some(|a|), Some(-|c|)) == b
  {
    var s := a + b + c;
    assert s[|a|..|a| + |b|] == b;
  }

  /** An empty suffix is the exception: `s[k:-0]` is `s[k:0]`, which is empty. */
  lemma SliceToMinusZero<T>(s: seq<T>, k: int)
    ensures PySlice(s, Some(k), Some(-0)) == []
  {
  }

  /** `s[len(a):]` on `a + b` is `b`. */
  lemma SliceAfterPrefix<T>(a: seq<T>, b: seq<T>)
    ensures PySlice(a + b, Some(|a|), None) == b
  {
    assert (a + b)[|a|..] == b;
  }

  /** `s[-len(b):]` on `a + b` is `b`, for a non-empty `b`. */
  lemma SliceLast<T>(a: seq<T>, b: seq<T>)
    requires |b| > 0
    ensures PySlice(a + b, Some(-|b|), None) == b
  {
    assert (a + b)[|a|..] == b;
  }

  /** `s[len(a):len(a) + len(b)]` on `a + b + c` is `b`. */
  lemma SliceRange<T>(a: seq<T>, b: seq<T>, c: seq<T>)
    ensures PySlice(a + b + c, Some(|a|), Some(|a| + |b|)) == b
  {
    var s := a + b + c;
    assert s[|a|..|a| + |b|] == b;
  }

  /** `s[:n]`: the first n elements for n >= 0, all but the last -n ones for n < 0. */
  lemma SliceHead<T>(s: seq<T>, n: int)
    ensures n >= 0 ==> PySlice(s, None, Some(n)) == s[..if n <= |s| then n else |s|]
    ensures n < 0 ==> PySlice(s, None, Some(n)) == s[..if |s| + n >= 0 then |s| + n else 0]
  {
  }

  // ---------------------------------------------------------------------------
  // int(text)

  /** The characters `str.strip()` removes that lie in Latin-1. */
  predicate IsSpace(c: char)
  {
    var n := c as int;
    (9 <= n <= 13) || (28 <= n <= 32) || n == 0x85 || n == 0xA0
  }

  predicate IsDigit(c: char)
  {
    '0' <= c <= '9'
  }

  function LStrip(s: string): (r: string)
    ensures |r| <= |s| && r == s[|s| - |r|..]
    ensures |r| > 0 ==> !IsSpace(r[0])
  {
    if |s| > 0 && IsSpace(s[0]) then LStrip(s[1..]) else s
  }

  function RStrip(s: string): (r: string)
    ensures |r| <= |s| && r == s[..|r|]
    ensures |r| > 0 ==> !IsSpace(r[|r| - 1])
  {
    if |s| > 0 && IsSpace(s[|s| - 1]) then RStrip(s[..|s| - 1]) else s
  }

  function Strip(s: string): string
  {
    RStrip(LStrip(s))
  }

  /**
    The digits of a decimal literal: digits, with single underscores allowed
    between two digits.
  */
  predicate WellFormedDigits(s: string)
  {
    && |s| > 0 && IsDigit(s[0]) && IsDigit(s[|s| - 1])
    && (forall i :: 0 <= i < |s| ==> IsDigit(s[i]) || s[i] == '_')
    && (forall i, j :: 0 <= i < |s| && 0 <= j < |s| && j == i + 1 ==> !(s[i] == '_' && s[j] == '_'))
  }

  function DigitValue(c: char): int
  {
    c as int - '0' as int
  }

  /** The value of a run of digits, underscores being skipped. */
  function DigitsValue(s: string): int
  {
    if |s| == 0 then 0
    else if s[|s| - 1] == '_' then DigitsValue(s[..|s| - 1])
    else DigitsValue(s[..|s| - 1]) * 10 + DigitValue(s[|s| - 1])
  }

  /** `int(text)`: `None` where Python raises `ValueError`. */
  function ParseInt(text: string): Option<int>
  {
    var t := Strip(text);
    if |t| == 0 then None
    else
      var body := if t[0] == '-' || t[0] == '+' then t[1..] else t;
      if !WellFormedDigits(body) then None
      else if t[0] == '-' then Some(-DigitsValue(body))
      else Some(DigitsValue(body))
  }

  function Digit(k: nat): (c: char)
    requires k < 10
    ensures IsDigit(c) && DigitValue(c) == k
  {
    ('0' as int + k) as char
  }

  /** `str(n)` for a natural number. */
  function ShowNat(n: nat): (s: string)
    ensures |s| > 0 && forall i :: 0 <= i < |s| ==> IsDigit(s[i])
    ensures DigitsValue(s) == n
  {
    if n < 10 then [Digit(n)]
    else
      var s := ShowNat(n / 10) + [Digit(n % 10)];
      assert s[..|s| - 1] == ShowNat(n / 10);
      s
  }

  /** `str(i)` for an integer. */
  function ShowInt(i: int): string
  {
    if i < 0 then "-" + ShowNat(-i) else ShowNat(i)
  }

  function Zeros(k: nat): (z: string)
    ensures |z| == k && forall i :: 0 <= i < k ==> z[i] == '0'
  {
    seq(k, _ => '0')
  }

  /** `'%0*d' % (width, n)`: n written with at least `width` digits. */
  function ZeroPadded(n: nat, width: nat): (s: string)
    ensures |s| > 0 && forall i :: 0 <= i < |s| ==> IsDigit(s[i])
  {
    var digits := ShowNat(n);
    (if |digits| < width then Zeros(width - |digits|) else "") + digits
  }

  /** Leading zeros do not change the value of a digit run. */
  lemma {:induction false} LeadingZeros(z: string, s: string)
    requires forall i :: 0 <= i < |z| ==> z[i] == '0'
    ensures DigitsValue(z + s) == DigitsValue(s)
    decreases |s| + |z|
  {
    if |s| == 0 {
      assert z + s == z;
      if |z| > 0 {
        LeadingZeros(z[..|z| - 1], []);
        assert z[..|z| - 1] + [] == z[..|z| - 1];
      }
    } else {
      var p := s[..|s| - 1];
      assert (z + s)[..|z + s| - 1] == z + p;
      LeadingZeros(z, p);
    }
  }

  lemma ZeroPaddedValue(n: nat, width: nat)
    ensures DigitsValue(ZeroPadded(n, width)) == n
  {
    var digits := ShowNat(n);
    LeadingZeros(if |digits| < width then Zeros(width - |digits|) else "", digits);
  }

  /** Text that neither starts nor ends with whitespace is left as it is by `strip()`. */
  lemma StripKeeps(s: string)
    requires |s| > 0 && !IsSpace(s[0]) && !IsSpace(s[|s| - 1])
    ensures Strip(s) == s
  {
    assert LStrip(s) == s;
  }

  lemma DigitsWellFormed(s: string)
    requires |s| > 0 && forall i :: 0 <= i < |s| ==> IsDigit(s[i])
    ensures WellFormedDigits(s)
  {
  }

  /** A plain run of digits parses to its value. */
  lemma ParseDigits(s: string)
    requires |s| > 0 && forall i :: 0 <= i < |s| ==> IsDigit(s[i])
    ensures ParseInt(s) == Some(DigitsValue(s))
  {
    StripKeeps(s);
    DigitsWellFormed(s);
  }

  /** `int(str(i)) == i` for every integer. */
  lemma ParseShowInt(i: int)
    ensures ParseInt(ShowInt(i)) == Some(i)
  {
    if i < 0 {
      var s := ShowInt(i);
      assert s == "-" + ShowNat(-i);
      StripKeeps(s);
      assert s[1..] == ShowNat(-i);
      DigitsWellFormed(ShowNat(-i));
    } else {
      ParseDigits(ShowNat(i));
    }
  }

  /** A zero-padded number parses back to itself. */
  lemma ParseZeroPadded(n: nat, width: nat)
    ensures ParseInt(ZeroPadded(n, width)) == Some(n)
  {
    ParseDigits(ZeroPadded(n, width));
    ZeroPaddedValue(n, width);
  }

  /** Surrounding whitespace is ignored. */
  lemma ParseIgnoresSpaces(s: string)
    requires |s| > 0 && !IsSpace(s[0]) && !IsSpace(s[|s| - 1])
    ensures ParseInt([' '] + s + ['\n']) == ParseInt(s)
  {
    var t := [' '] + s + ['\n'];
    assert Strip(t) == s by {
      assert t == [' '] + (s + ['\n']);
      assert t[1..] == s + ['\n'];
      assert LStrip(t) == LStrip(s + ['\n']);
      assert LStrip(s + ['\n']) == s + ['\n'];
      assert (s + ['\n'])[..|s|] == s;
      assert RStrip(s + ['\n']) == RStrip(s);
      assert RStrip(s) == s;
    }
    StripKeeps(s);
  }

  // ---------------------------------------------------------------------------
  // os.path.split and os.path.join (posixpath)

  /** The position just after the last '/', 0 when there is none. */
  function SplitPoint(p: string): (i: nat)
    ensures i <= |p| && (i > 0 ==> p[i - 1] == '/')
    ensures forall j :: i <= j < |p| ==> p[j] != '/'
  {
    if |p| == 0 then 0 else if p[|p| - 1] == '/' then |p| else SplitPoint(p[..|p| - 1])
  }

  predicate AllSeps(s: string)
  {
    forall j :: 0 <= j < |s| ==> s[j] == '/'
  }

  function RStripSeps(s: string): (r: string)
    ensures |r| <= |s| && r == s[..|r|]
  {
    if |s| > 0 && s[|s| - 1] == '/' then RStripSeps(s[..|s| - 1]) else s
  }

  /**
    `os.path.split(p)`: everything after the last '/' is the tail; the head
    loses its trailing slashes unless it consists of slashes only.
  */
  function Split(p: string): (r: (string, string))
    ensures forall j :: 0 <= j < |r.1| ==> r.1[j] != '/'
    ensures |r.0| + |r.1| <= |p| && r.1 == p[|p| - |r.1|..]
  {
    var i := SplitPoint(p);
    var head := p[..i];
    (if |head| > 0 && !AllSeps(head) then RStripSeps(head) else head, p[i..])
  }

  /** `os.path.join(a, b)`: an absolute `b` replaces `a`; otherwise one '/' is put between. */
  function Join(a: string, b: string): (r: string)
  {
    if |b| > 0 && b[0] == '/' then b
    else if |a| == 0 || a[|a| - 1] == '/' then a + b
    else a + "/" + b
  }

  /** `os.path.join(a, *parts)`, folding from the left. */
  function JoinAll(a: string, parts: seq<string>): string
  {
    if |parts| == 0 then a else Join(JoinAll(a, parts[..|parts| - 1]), parts[|parts| - 1])
  }

  /** Splitting what was joined gives back the two parts. */
  lemma SplitJoin(a: string, b: string)
    requires |a| > 0 && a[|a| - 1] != '/'
    requires forall j :: 0 <= j < |b| ==> b[j] != '/'
    ensures Split(Join(a, b)) == (a, b)
  {
    var p := Join(a, b);
    assert p == a + "/" + b;
    var i := SplitPoint(p);
    assert p[|a|] == '/';
    assert i == |a| + 1;
    assert p[..i] == a + "/";
    assert !AllSeps(a + "/") by {
      assert (a + "/")[|a| - 1] != '/';
    }
    assert (a + "/")[..|a|] == a;
    assert RStripSeps(a) == a;
    assert RStripSeps(a + "/") == a;
    assert Split(p).0 == a;
    assert p[i..] == b;
  }

  /** Joining the two halves of a split gives back the path, when no '/' is doubled. */
  lemma JoinSplit(p: string)
    requires forall j :: 0 <= j < |p| - 1 ==> !(p[j] == '/' && p[j + 1] == '/')
    ensures Join(Split(p).0, Split(p).1) == p
  {
    var i := SplitPoint(p);
    var (head, tail) := Split(p);
    assert tail == p[i..];
    if i == 0 {
      assert head == [];
    } else if i == 1 {
      assert AllSeps(p[..1]);
      assert head == "/";
    } else {
      assert p[i - 2] != '/';
      assert !AllSeps(p[..i]) by {
        assert p[..i][i - 2] != '/';
      }
      assert p[..i][..i - 1] == p[..i - 1];
      assert RStripSeps(p[..i - 1]) == p[..i - 1];
      assert head == p[..i - 1];
      assert p == p[..i - 1] + "/" + tail;
    }
  }
}
