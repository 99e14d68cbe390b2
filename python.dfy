/** The parts of Python's runtime and standard library whose exact behaviour the two
    applications rely on: exceptions, `int()` on a float, floor division, float modulo,
    `str.lower`, `str.endswith` and `os.path.join` / `os.path.basename` on POSIX paths. */
module Python {

  /** `None` or a value, as returned by `dict.get`. */
  datatype Option<+T> = None | Some(value: T)

  /** The exceptions that reach the applications' `except` clauses. `OverflowError` is what
      the image library's C layer raises for a coordinate or size outside the C `int` range.
      `OSError` stands for every other exception the image library raises (an unreadable
      image, a directory opened as a file), which both applications only ever catch as a
      generic `Exception`. */
  datatype Exception =
    | FileNotFoundError(message: string)
    | ValueError(message: string)
    | OverflowError(message: string)
    | OSError(message: string)

  /** The outcome of a call that may raise. */
  datatype Result<+T> = Ok(value: T) | Raised(error: Exception)

  /** `int(x)` for a float `x`: truncation toward zero. The two ensures clauses pin the
      result down uniquely for every `x`. */
  function Trunc(x: real): (r: int)
    ensures 0.0 <= x ==> r as real <= x < r as real + 1.0
    ensures x < 0.0 ==> r as real - 1.0 < x <= r as real
  {
    if x >= 0.0 then x.Floor else -((-x).Floor)
  }

  /** `int()` and floor agree except on negative non-integral values, where truncation
      rounds up and floor rounds down. */
  lemma TruncVersusFloor(x: real)
    ensures Trunc(x) == (if 0.0 <= x || x.Floor as real == x then x.Floor else x.Floor + 1)
  {
  }

  /** `int()` leaves an integral value unchanged. */
  lemma TruncOfIntegral(n: int)
    ensures Trunc(n as real) == n
  {
  }

  /** `a // b` for a positive divisor: the largest integer `q` with `q * b <= a`. Dafny's
      Euclidean division coincides with Python's floor division when the divisor is positive. */
  function FloorDiv(a: int, b: int): (q: int)
    requires b > 0
    ensures q * b <= a < q * b + b
  {
    a / b
  }

  /** `a % 360.0` on floats: the result lies in `[0, 360)` and differs from `a` by a whole
      number of turns. */
  function Mod360(a: real): (r: real)
    ensures 0.0 <= r < 360.0
    ensures a - r == (a / 360.0).Floor as real * 360.0
  {
    var q := (a / 360.0).Floor;
    assert q as real <= a / 360.0 < q as real + 1.0;
    assert q as real * 360.0 <= a < q as real * 360.0 + 360.0;
    a - q as real * 360.0
  }

  /** `str.lower()` on one character; only the ASCII letters are folded. */
  function LowerChar(c: char): char
  {
    if 'A' <= c <= 'Z' then (c as int - 'A' as int + 'a' as int) as char else c
  }

  /** `str.lower()` on a whole string: each ASCII capital becomes its small letter, every
      other character is kept, and the length is unchanged. */
  function Lower(s: string): (r: string)
    ensures |r| == |s|
    ensures forall i :: 0 <= i < |s| && 'A' <= s[i] <= 'Z' ==> r[i] as int == s[i] as int + 32
    ensures forall i :: 0 <= i < |s| && !('A' <= s[i] <= 'Z') ==> r[i] == s[i]
  {
    seq(|s|, i requires 0 <= i < |s| => LowerChar(s[i]))
  }

  /** `s.endswith(suffix)`: `s` is some string followed by `suffix`. */
  predicate EndsWith(s: string, suffix: string)
    ensures EndsWith(s, suffix) <==> |suffix| <= |s| && s == s[..|s| - |suffix|] + suffix
  {
    |suffix| <= |s| && s[|s| - |suffix|..] == suffix
  }

  /** `s.endswith(suffixes)` for a tuple of suffixes: true when any one of them matches. */
  predicate EndsWithAny(s: string, suffixes: seq<string>)
  {
    exists k :: 0 <= k < |suffixes| && EndsWith(s, suffixes[k])
  }

  /** `posixpath.join(a, b)`: an absolute `b` discards `a`; otherwise the two are joined
      with a single separator unless `a` is empty or already ends in one. */
  function Join(a: string, b: string): (r: string)
    ensures |b| > 0 && b[0] == '/' ==> r == b
    ensures !(|b| > 0 && b[0] == '/') ==>
      && |a| + |b| <= |r| <= |a| + |b| + 1
      && r[..|a|] == a && r[|r| - |b|..] == b
      && (a != [] ==> r[|r| - |b| - 1] == '/')
      && (|r| == |a| + |b| + 1 <==> a != [] && a[|a| - 1] != '/')
  {
    if |b| > 0 && b[0] == '/' then b
    else if a == [] || a[|a| - 1] == '/' then a + b
    else a + "/" + b
  }

  /** `s.rfind(c)`: the index of the last occurrence of `c`, or -1. */
  function RFind(s: string, c: char): (i: int)
    ensures -1 <= i < |s|
    ensures 0 <= i ==> s[i] == c
    ensures forall j :: i < j < |s| ==> s[j] != c
  {
    if s == [] then -1
    else if s[|s| - 1] == c then |s| - 1
    else RFind(s[..|s| - 1], c)
  }

  /** `posixpath.basename(p)`, that is `p[p.rfind('/') + 1:]`: the longest suffix of `p`
      that holds no separator. */
  function Basename(p: string): (r: string)
    ensures |r| <= |p| && r == p[|p| - |r|..]
    ensures '/' !in r
    ensures |r| < |p| ==> p[|p| - |r| - 1] == '/'
  {
    p[RFind(p, '/') + 1..]
  }

  /** The basename is what follows the last separator: if `p[k]` is a `/` and none follows
      it, the basename is `p[k + 1..]`. */
  lemma BasenameAfterLastSlash(p: string, k: int)
    requires 0 <= k < |p| && p[k] == '/'
    requires forall j :: k < j < |p| ==> p[j] != '/'
    ensures Basename(p) == p[k + 1..]
  {
    assert RFind(p, '/') == k;
  }
}
