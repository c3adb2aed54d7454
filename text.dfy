/**
 * The string primitives the TypeScript code leans on: JavaScript's notion of
 * white space (what `\s` matches and `String.prototype.trim` strips), line
 * terminators (what `.` refuses to match), substring search, `split`/`join`
 * on a fixed separator and decimal digit strings.
 */
module Text {
  import opened Wrappers

  /** The characters matched by `\s` and removed by `trim()`. */
  predicate IsSpace(c: char) {
    || c == '\t' || c == '\n' || c == '\U{B}' || c == '\U{C}' || c == '\r' || c == ' '
    || c == '\U{A0}' || c == '\U{1680}' || ('\U{2000}' <= c <= '\U{200A}')
    || c == '\U{2028}' || c == '\U{2029}' || c == '\U{202F}' || c == '\U{205F}'
    || c == '\U{3000}' || c == '\U{FEFF}'
  }

  /** The characters `.` does not match (no `s` flag). */
  predicate IsLineTerminator(c: char) {
    c == '\n' || c == '\r' || c == '\U{2028}' || c == '\U{2029}'
  }

  /** `\d` without the `u` flag. */
  predicate IsDigit(c: char) {
    '0' <= c <= '9'
  }

  predicate IsBlank(s: string) {
    forall k :: 0 <= k < |s| ==> IsSpace(s[k])
  }

  // ---------------------------------------------------------------- trimming

  function TrimStart(s: string): (r: string)
    ensures |r| <= |s| && r == s[|s| - |r|..]
    ensures r == [] || !IsSpace(r[0])
    ensures forall k :: 0 <= k < |s| - |r| ==> IsSpace(s[k])
  {
    if s != [] && IsSpace(s[0]) then TrimStart(s[1..]) else s
  }

  function TrimEnd(s: string): (r: string)
    ensures |r| <= |s| && r == s[..|r|]
    ensures r == [] || !IsSpace(r[|r| - 1])
    ensures forall k :: |r| <= k < |s| ==> IsSpace(s[k])
  {
    if s != [] && IsSpace(s[|s| - 1]) then TrimEnd(s[..|s| - 1]) else s
  }

  /** `s.trim()`: `s` without its leading and trailing white space. */
  function Trim(s: string): (r: string)
    ensures |r| <= |s|
    ensures r == [] || (!IsSpace(r[0]) && !IsSpace(r[|r| - 1]))
    ensures r == [] <==> IsBlank(s)
  {
    TrimBlank(s);
    TrimEnd(TrimStart(s))
  }

  /** A non-empty single line with no white space at either end. */
  predicate TrimmedLine(v: string) {
    && v != [] && !IsSpace(v[0]) && !IsSpace(v[|v| - 1])
    && forall k :: 0 <= k < |v| ==> !IsLineTerminator(v[k])
  }

  /** Trimming a single line leaves a trimmed line or nothing. */
  lemma TrimOneLine(s: string)
    requires forall k :: 0 <= k < |s| ==> !IsLineTerminator(s[k])
    ensures Trim(s) == [] || TrimmedLine(Trim(s))
  {
    var r := Trim(s);
    TrimWithin(s);
    forall k | 0 <= k < |r| ensures !IsLineTerminator(r[k]) {
      assert r[k] in s;
    }
  }

  /** Trimming leaves nothing exactly when `s` is blank. */
  lemma TrimBlank(s: string)
    ensures TrimEnd(TrimStart(s)) == [] <==> IsBlank(s)
  {
    var t := TrimStart(s);
    if TrimEnd(t) != [] {
      assert TrimEnd(t)[0] == s[|s| - |t|];
    }
  }

  /** Trimming adds no character: every character of `Trim(s)` occurs in `s`. */
  lemma TrimWithin(s: string)
    ensures forall k :: 0 <= k < |Trim(s)| ==> Trim(s)[k] in s
  {
    var t := TrimStart(s);
    var i := |s| - |t|;
    var r := TrimEnd(t);
    assert Trim(s) == r;
    forall k | 0 <= k < |r| ensures r[k] in s {
      assert r[k] == s[i + k];
    }
  }

  /** A string that starts and ends with a non-space character is its own trim. */
  lemma TrimClean(s: string)
    requires s != [] && !IsSpace(s[0]) && !IsSpace(s[|s| - 1])
    ensures Trim(s) == s
  {
    assert TrimStart(s) == s;
  }

  // ------------------------------------------------------------ lower case

  function LowerChar(c: char): char {
    if 'A' <= c <= 'Z' then (c as int + 32) as char else c
  }

  /** `toLowerCase()` on the ASCII letters; every other character is kept. */
  function ToLower(s: string): (r: string)
    ensures |r| == |s|
    ensures forall k :: 0 <= k < |s| ==> r[k] == LowerChar(s[k])
  {
    seq(|s|, k requires 0 <= k < |s| => LowerChar(s[k]))
  }

  // ------------------------------------------------------------ searching

  predicate Occurs(s: string, pat: string, i: int) {
    0 <= i && i + |pat| <= |s| && s[i..i + |pat|] == pat
  }

  /** The first index at or after `from` where `pat` occurs (`indexOf(pat, from)`). */
  function FindFrom(s: string, pat: string, from: nat): (r: Option<nat>)
    ensures r.Some? ==> from <= r.value && Occurs(s, pat, r.value)
    ensures r.Some? ==> forall m :: from <= m < r.value ==> !Occurs(s, pat, m)
    ensures r.None? ==> forall m :: from <= m ==> !Occurs(s, pat, m)
    decreases |s| - from
  {
    if from + |pat| > |s| then None
    else if s[from..from + |pat|] == pat then Some(from)
    else FindFrom(s, pat, from + 1)
  }

  function Find(s: string, pat: string): Option<nat> {
    FindFrom(s, pat, 0)
  }

  /** `s.includes(sub)`. */
  predicate Contains(s: string, sub: string) {
    Find(s, sub).Some?
  }

  lemma ContainsIff(s: string, sub: string)
    ensures Contains(s, sub) <==> exists i :: Occurs(s, sub, i)
  {
  }

  /** Whatever sits between two strings is contained in their concatenation. */
  lemma ContainsWithin(x: string, y: string, z: string)
    ensures Contains(x + y + z, y)
  {
    var s := x + y + z;
    assert s[|x|..|x| + |y|] == y;
    assert Occurs(s, y, |x|);
  }

  /** The first occurrence is the one at `k` when nothing occurs before it. */
  lemma FindAt(s: string, pat: string, from: nat, k: nat)
    requires from <= k && Occurs(s, pat, k)
    requires forall m :: from <= m < k ==> !Occurs(s, pat, m)
    ensures FindFrom(s, pat, from) == Some(k)
  {
    var r := FindFrom(s, pat, from);
    assert r.Some?;
  }

  /**
   * Occurrences of a pattern that contains no line feed cannot straddle a
   * line feed: in `a + "\n" + b` they are the occurrences in `a` and those
   * in `b`, shifted.
   */
  lemma OccursAcrossLine(a: string, b: string, pat: string, m: nat)
    requires |pat| > 0 && '\n' !in pat
    ensures Occurs(a + "\n" + b, pat, m) <==>
              (m + |pat| <= |a| && Occurs(a, pat, m)) || (m > |a| && Occurs(b, pat, m - |a| - 1))
  {
    var s := a + "\n" + b;
    if m + |pat| <= |s| {
      if m + |pat| <= |a| {
        assert s[m..m + |pat|] == a[m..m + |pat|];
      } else if m <= |a| {
        assert s[m..m + |pat|][|a| - m] == '\n';
        assert pat[|a| - m] != '\n';
      } else {
        assert s[m..m + |pat|] == b[m - |a| - 1..m - |a| - 1 + |pat|];
      }
    }
  }

  /** Searching `a + "\n" + b` finds the first occurrence in `b` when `a` has none. */
  lemma FindAfterLine(a: string, b: string, pat: string, q: nat)
    requires |pat| > 0 && '\n' !in pat
    requires Find(a, pat).None?
    requires Find(b, pat) == Some(q)
    ensures Find(a + "\n" + b, pat) == Some(|a| + 1 + q)
  {
    var s := a + "\n" + b;
    var k := |a| + 1 + q;
    forall m | 0 <= m <= k ensures Occurs(s, pat, m) <==> m == k {
      OccursAcrossLine(a, b, pat, m);
    }
    FindAt(s, pat, 0, k);
  }

  /** Neither line holds `pat` and `pat` has no line break: neither does the pair. */
  lemma FindNoneAfterLine(a: string, b: string, pat: string)
    requires |pat| > 0 && '\n' !in pat
    requires Find(a, pat).None? && Find(b, pat).None?
    ensures Find(a + "\n" + b, pat).None?
  {
    var s := a + "\n" + b;
    forall m | 0 <= m ensures !Occurs(s, pat, m) {
      OccursAcrossLine(a, b, pat, m);
    }
  }

  // ------------------------------------------------------------ single characters

  /** The index of the first `c` in `s`. */
  function FirstIndexOf(s: string, c: char): (r: Option<nat>)
    ensures r.Some? ==> r.value < |s| && s[r.value] == c && forall k :: 0 <= k < r.value ==> s[k] != c
    ensures r.None? ==> c !in s
  {
    if s == [] then None
    else if s[0] == c then Some(0)
    else match FirstIndexOf(s[1..], c)
         case Some(i) => Some(i + 1)
         case None => None
  }

  /** The index of the last `c` in `s`. */
  function LastIndexOf(s: string, c: char): (r: Option<nat>)
    ensures r.Some? ==> r.value < |s| && s[r.value] == c && forall k :: r.value < k < |s| ==> s[k] != c
    ensures r.None? ==> c !in s
  {
    if s == [] then None
    else if s[|s| - 1] == c then Some(|s| - 1)
    else LastIndexOf(s[..|s| - 1], c)
  }

  // ------------------------------------------------------------ split / join

  /** `s.split(sep)` for a non-empty separator: scanning left to right, without overlaps. */
  function Split(s: string, sep: string): (r: seq<string>)
    requires |sep| > 0
    ensures |r| > 0
    decreases |s|
  {
    match Find(s, sep)
    case None => [s]
    case Some(p) => [s[..p]] + Split(s[p + |sep|..], sep)
  }

  /** `parts.join(sep)`. */
  function Join(parts: seq<string>, sep: string): string {
    if |parts| == 0 then ""
    else if |parts| == 1 then parts[0]
    else parts[0] + sep + Join(parts[1..], sep)
  }

  /** Splitting and joining back with the same separator returns the original text. */
  lemma {:induction false} JoinSplit(s: string, sep: string)
    requires |sep| > 0
    ensures Join(Split(s, sep), sep) == s
    decreases |s|
  {
    match Find(s, sep)
    case None =>
    case Some(p) =>
      var rest := s[p + |sep|..];
      JoinSplit(rest, sep);
      assert s == s[..p] + sep + rest;
  }

  /**
   * Joining parts that do not contain the separator's first character and
   * splitting again recovers exactly those parts.
   */
  lemma {:induction false} SplitJoin(parts: seq<string>, sep: string)
    requires |sep| > 0 && |parts| > 0
    requires forall i :: 0 <= i < |parts| ==> sep[0] !in parts[i]
    ensures Split(Join(parts, sep), sep) == parts
  {
    var p0 := parts[0];
    if |parts| == 1 {
      forall m | 0 <= m ensures !Occurs(p0, sep, m) {
        if m + |sep| <= |p0| { assert p0[m..m + |sep|][0] == p0[m] != sep[0]; }
      }
      assert Find(p0, sep).None?;
    } else {
      var tail := Join(parts[1..], sep);
      var s := p0 + sep + tail;
      assert Occurs(s, sep, |p0|) by { assert s[|p0|..|p0| + |sep|] == sep; }
      forall m | 0 <= m < |p0| ensures !Occurs(s, sep, m) {
        if m + |sep| <= |s| { assert s[m..m + |sep|][0] == p0[m] != sep[0]; }
      }
      FindAt(s, sep, 0, |p0|);
      assert s[..|p0|] == p0;
      assert s[|p0| + |sep|..] == tail;
      SplitJoin(parts[1..], sep);
    }
  }

  /** No piece produced by `Split` contains the separator. */
  lemma {:induction false} SplitPiecesFree(s: string, sep: string, i: nat)
    requires |sep| > 0 && i < |Split(s, sep)|
    ensures !Contains(Split(s, sep)[i], sep)
    decreases |s|
  {
    match Find(s, sep)
    case None =>
    case Some(p) =>
      assert Split(s, sep) == [s[..p]] + Split(s[p + |sep|..], sep);
      if i == 0 {
        assert !Contains(s[..p], sep) by {
          forall m | 0 <= m ensures !Occurs(s[..p], sep, m) {
            if m + |sep| <= p {
              assert s[..p][m..m + |sep|] == s[m..m + |sep|];
              assert !Occurs(s, sep, m);
            }
          }
        }
      } else {
        SplitPiecesFree(s[p + |sep|..], sep, i - 1);
      }
  }

  // ------------------------------------------------------------ scanning runs

  /** How many characters `\s*` consumes at the start of `s`. */
  function LeadingSpaces(s: string): (r: nat)
    ensures r <= |s|
    ensures forall k :: 0 <= k < r ==> IsSpace(s[k])
    ensures r < |s| ==> !IsSpace(s[r])
  {
    if s != [] && IsSpace(s[0]) then 1 + LeadingSpaces(s[1..]) else 0
  }

  /** How many characters `.+` (or `.*`) consumes at the start of `s`. */
  function LineLength(s: string): (r: nat)
    ensures r <= |s|
    ensures forall k :: 0 <= k < r ==> !IsLineTerminator(s[k])
    ensures r < |s| ==> IsLineTerminator(s[r])
  {
    if s != [] && !IsLineTerminator(s[0]) then 1 + LineLength(s[1..]) else 0
  }

  /** How many characters `\d+` consumes at the start of `s`. */
  function DigitRun(s: string): (r: nat)
    ensures r <= |s|
    ensures forall k :: 0 <= k < r ==> IsDigit(s[k])
    ensures r < |s| ==> !IsDigit(s[r])
  {
    if s != [] && IsDigit(s[0]) then 1 + DigitRun(s[1..]) else 0
  }

  /** The last index of `s` holding a character other than a line terminator. */
  function LastNonTerminator(s: string): (r: Option<nat>)
    ensures r.Some? ==> r.value < |s| && !IsLineTerminator(s[r.value])
    ensures r.Some? ==> forall k :: r.value < k < |s| ==> IsLineTerminator(s[k])
    ensures r.None? ==> forall k :: 0 <= k < |s| ==> IsLineTerminator(s[k])
  {
    if s == [] then None
    else if !IsLineTerminator(s[|s| - 1]) then Some(|s| - 1)
    else LastNonTerminator(s[..|s| - 1])
  }

  // ------------------------------------------------------------ decimal numbers

  function DigitChar(d: nat): char
    requires d < 10
  {
    ('0' as int + d) as char
  }

  /** The decimal rendering of a natural number, as `${n}` produces it. */
  function NatToString(n: nat): (r: string)
    ensures |r| > 0 && forall k :: 0 <= k < |r| ==> IsDigit(r[k])
  {
    if n < 10 then [DigitChar(n)] else NatToString(n / 10) + [DigitChar(n % 10)]
  }

  function DigitValue(c: char): nat
    requires IsDigit(c)
  {
    c as int - '0' as int
  }

  /** `parseInt` of a string of decimal digits. */
  function ParseDigits(ds: string): nat
    requires forall k :: 0 <= k < |ds| ==> IsDigit(ds[k])
  {
    if ds == [] then 0
    else ParseDigits(ds[..|ds| - 1]) * 10 + DigitValue(ds[|ds| - 1])
  }

  /** Reading back a rendered number gives the number. */
  lemma {:induction false} ParseNatToString(n: nat)
    ensures ParseDigits(NatToString(n)) == n
  {
    if n >= 10 {
      var s := NatToString(n);
      assert s[..|s| - 1] == NatToString(n / 10);
      ParseNatToString(n / 10);
    }
  }

  /** Distinct numbers render to distinct strings. */
  lemma NatToStringInjective(a: nat, b: nat)
    ensures NatToString(a) == NatToString(b) ==> a == b
  {
    ParseNatToString(a);
    ParseNatToString(b);
  }
}
