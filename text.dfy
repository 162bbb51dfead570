/** String and sequence helpers that stand for the JavaScript string methods and
    the small regular-expression fragments the parsers use. Strings are sequences
    of Unicode scalar values. */
module Text {

  datatype Option<+T> = None | Some(value: T)

  /** A value that may be missing, with the default that stands in for it: a
      dictionary's `get(key, default)`, a default parameter, `value || []`. */
  function GetOr<T>(v: Option<T>, default: T): (r: T)
    ensures v.None? ==> r == default
    ensures v.Some? ==> r == v.value
  {
    if v.Some? then v.value else default
  }

  /** The ECMAScript WhiteSpace and LineTerminator code points: what the class
      `\s` matches and what `String.prototype.trim` removes. */
  predicate IsSpace(c: char) {
    || c == ' ' || c == '\t' || c == '\n' || c == '\r' || c == '\U{000B}' || c == '\U{000C}'
    || c == '\U{00A0}' || c == '\U{1680}' || ('\U{2000}' <= c <= '\U{200A}')
    || c == '\U{2028}' || c == '\U{2029}' || c == '\U{202F}' || c == '\U{205F}'
    || c == '\U{3000}' || c == '\U{FEFF}'
  }

  /** The characters `.` does not match when a pattern has no `s` flag. */
  predicate IsLineTerminator(c: char) {
    c == '\n' || c == '\r' || c == '\U{2028}' || c == '\U{2029}'
  }

  predicate IsBlank(s: string) {
    forall i :: 0 <= i < |s| ==> IsSpace(s[i])
  }

  predicate NoLineTerminator(s: string) {
    forall i :: 0 <= i < |s| ==> !IsLineTerminator(s[i])
  }

  function Min(a: int, b: int): int { if a <= b then a else b }

  /** Drops the leading white space. */
  function TrimStart(s: string): (r: string)
    ensures |r| <= |s| && r == s[|s| - |r|..]
    ensures IsBlank(s[..|s| - |r|])
    ensures r == [] || !IsSpace(r[0])
  {
    if |s| > 0 && IsSpace(s[0]) then
      var r := TrimStart(s[1..]);
      assert s[..|s| - |r|] == [s[0]] + s[1..][..|s| - 1 - |r|];
      r
    else s
  }

  /** Drops the trailing white space. */
  function TrimEnd(s: string): (r: string)
    ensures |r| <= |s| && r == s[..|r|]
    ensures IsBlank(s[|r|..])
    ensures r == [] || !IsSpace(r[|r| - 1])
  {
    if |s| > 0 && IsSpace(s[|s| - 1]) then
      var r := TrimEnd(s[..|s| - 1]);
      assert s[|r|..] == s[..|s| - 1][|r|..] + [s[|s| - 1]];
      r
    else s
  }

  /** `String.prototype.trim`: drops white space at both ends. */
  function Trim(s: string): (r: string)
    ensures |r| <= |s|
    ensures forall c :: c in r ==> c in s
    ensures r == [] || (!IsSpace(r[0]) && !IsSpace(r[|r| - 1]))
  {
    TrimEnd(TrimStart(s))
  }

  /** Trimming leaves nothing exactly when the string is all white space. */
  lemma TrimEmptyIffBlank(s: string)
    ensures Trim(s) == [] <==> IsBlank(s)
  {
    var t := TrimStart(s);
    if Trim(s) == [] {
      assert IsBlank(t[0..]);
      assert s == s[..|s| - |t|] + t;
    }
  }

  lemma {:induction false} TrimStartOfBlankPrefix(w: string, s: string)
    requires IsBlank(w)
    ensures TrimStart(w + s) == TrimStart(s)
  {
    if w != [] {
      assert (w + s)[1..] == w[1..] + s;
      assert (w + s)[0] == w[0];
      TrimStartOfBlankPrefix(w[1..], s);
    } else {
      assert w + s == s;
    }
  }

  /** White space in front of a string does not change what `trim` returns. */
  lemma TrimOfBlankPrefix(w: string, s: string)
    requires IsBlank(w)
    ensures Trim(w + s) == Trim(s)
  {
    TrimStartOfBlankPrefix(w, s);
  }

  lemma {:induction false} TrimEndOfBlankSuffix(s: string, w: string)
    requires IsBlank(w)
    ensures TrimEnd(s + w) == TrimEnd(s)
  {
    if w != [] {
      assert (s + w)[..|s + w| - 1] == s + w[..|w| - 1];
      TrimEndOfBlankSuffix(s, w[..|w| - 1]);
    } else {
      assert s + w == s;
    }
  }

  /** The trim is the slice of the string between its leading and its trailing white space. */
  lemma TrimIsSlice(s: string) returns (o: nat)
    ensures o + |Trim(s)| <= |s| && Trim(s) == s[o..o + |Trim(s)|]
  {
    var t := TrimStart(s);
    o := |s| - |t|;
    assert Trim(s) == t[..|Trim(s)|];
  }

  /** A string with no white space at either end is its own trim. */
  lemma TrimOfTrimmed(w: string)
    requires w == [] || (!IsSpace(w[0]) && !IsSpace(w[|w| - 1]))
    ensures Trim(w) == w
  {
    assert TrimStart(w) == w;
  }

  /** A word with no white space at either end, padded with white space, trims to itself. */
  lemma TrimOfPadded(pad: string, w: string, tail: string)
    requires IsBlank(pad) && IsBlank(tail)
    requires w == [] || (!IsSpace(w[0]) && !IsSpace(w[|w| - 1]))
    ensures Trim(pad + w + tail) == w
  {
    assert pad + w + tail == pad + (w + tail);
    TrimStartOfBlankPrefix(pad, w + tail);
    if w == [] {
      assert w + tail == tail;
      assert TrimStart(tail) == [];
    } else {
      assert TrimStart(w + tail) == w + tail;
    }
    TrimEndOfBlankSuffix(w, tail);
  }

  /** `s[i..]` begins with `lit`. */
  predicate StartsAt(s: string, i: nat, lit: string) {
    i + |lit| <= |s| && s[i..i + |lit|] == lit
  }

  function LowerChar(c: char): char {
    if 'A' <= c <= 'Z' then (c as int + 32) as char else c
  }

  /** ASCII lower-casing; no other characters change. */
  function Lower(s: string): (r: string)
    ensures |r| == |s| && forall i :: 0 <= i < |s| ==> r[i] == LowerChar(s[i])
  {
    seq(|s|, i requires 0 <= i < |s| => LowerChar(s[i]))
  }

  /** `s[i..]` begins with `lit` up to ASCII case (an `/i` pattern without the `u` flag
      folds no non-ASCII character onto an ASCII one). */
  predicate StartsAtCI(s: string, i: nat, lit: string) {
    i + |lit| <= |s| && Lower(s[i..i + |lit|]) == Lower(lit)
  }

  /** `s.includes(lit)` for a non-empty `lit`. */
  predicate Contains(s: string, lit: string) {
    exists i: nat | i <= |s| :: StartsAt(s, i, lit)
  }

  /** First index `j` in `[i, n)` where `p` holds, or `n` when there is none. */
  function FirstFrom(n: nat, i: nat, p: nat -> bool): (r: nat)
    requires i <= n
    ensures i <= r <= n
    ensures forall j :: i <= j < r ==> !p(j)
    ensures r < n ==> p(r)
    decreases n - i
  {
    if i == n then n else if p(i) then i else FirstFrom(n, i + 1, p)
  }

  /** `FirstFrom` is pinned down by its contract: any index with the three properties is it. */
  lemma {:induction false} FirstFromIs(n: nat, i: nat, p: nat -> bool, r: nat)
    requires i <= r <= n
    requires forall j :: i <= j < r ==> !p(j)
    requires r < n ==> p(r)
    ensures FirstFrom(n, i, p) == r
    decreases n - i
  {
    if i < r {
      assert !p(i);
      FirstFromIs(n, i + 1, p, r);
    }
  }

  lemma FirstFromBefore(n: nat, i: nat, p: nat -> bool, j: nat)
    requires i <= n && i <= j < FirstFrom(n, i, p)
    ensures !p(j)
  {
  }

  /** End of the run of white space that starts at `i`: where a greedy `\s*` stops. */
  function SpaceEnd(s: string, i: nat): (r: nat)
    requires i <= |s|
    ensures i <= r <= |s|
    ensures forall k :: i <= k < r ==> IsSpace(s[k])
    ensures r == |s| || !IsSpace(s[r])
    decreases |s| - i
  {
    if i < |s| && IsSpace(s[i]) then SpaceEnd(s, i + 1) else i
  }

  /** Index of the first `c` at or after `i`, or `|s|`. */
  function IndexOf(s: string, i: nat, c: char): (r: nat)
    requires i <= |s|
    ensures i <= r <= |s|
    ensures forall k :: i <= k < r ==> s[k] != c
    ensures r < |s| ==> s[r] == c
    decreases |s| - i
  {
    if i == |s| || s[i] == c then i else IndexOf(s, i + 1, c)
  }

  lemma {:induction false} IndexOfIs(s: string, i: nat, c: char, r: nat)
    requires i <= r <= |s|
    requires forall k :: i <= k < r ==> s[k] != c
    requires r < |s| ==> s[r] == c
    ensures IndexOf(s, i, c) == r
    decreases |s| - i
  {
    if i < r {
      IndexOfIs(s, i + 1, c, r);
    }
  }

  /** `s.split(sep)` where the separator is a single character of a class. */
  function Split(s: string, isSep: char -> bool): (r: seq<string>)
    ensures |r| >= 1
    ensures forall k, j :: 0 <= k < |r| && 0 <= j < |r[k]| ==> !isSep(r[k][j])
  {
    if s == [] then [""]
    else
      var rest := Split(s[1..], isSep);
      if isSep(s[0]) then [""] + rest else [[s[0]] + rest[0]] + rest[1..]
  }

  lemma {:induction false} SplitJoin(a: string, c: char, b: string, isSep: char -> bool)
    requires isSep(c)
    ensures Split(a + [c] + b, isSep) == Split(a, isSep) + Split(b, isSep)
  {
    if a == [] {
      assert [c] + b == a + [c] + b;
      assert ([c] + b)[1..] == b;
    } else {
      assert (a + [c] + b)[1..] == a[1..] + [c] + b;
      SplitJoin(a[1..], c, b, isSep);
    }
  }

  lemma {:induction false} SplitNoSeparator(a: string, isSep: char -> bool)
    requires forall j :: 0 <= j < |a| ==> !isSep(a[j])
    ensures Split(a, isSep) == [a]
  {
    if a != [] {
      SplitNoSeparator(a[1..], isSep);
      assert [a[0]] + a[1..] == a;
    }
  }

  /** Some segment of a split holds each non-separator character of the input. */
  lemma {:induction false} SplitKeepsNonSeparator(s: string, isSep: char -> bool, j: nat)
    requires j < |s| && !isSep(s[j])
    ensures exists k :: 0 <= k < |Split(s, isSep)| && s[j] in Split(s, isSep)[k]
  {
    var r := Split(s, isSep);
    var rest := Split(s[1..], isSep);
    if j == 0 {
      assert s[0] in r[0];
    } else {
      SplitKeepsNonSeparator(s[1..], isSep, j - 1);
      var k :| 0 <= k < |rest| && s[1..][j - 1] in rest[k];
      if isSep(s[0]) {
        assert r[k + 1] == rest[k];
      } else if k == 0 {
        assert r[0] == [s[0]] + rest[0];
      } else {
        assert r[k] == rest[k];
      }
    }
  }

  function Filter<T>(s: seq<T>, p: T -> bool): (r: seq<T>)
    ensures |r| <= |s|
    ensures forall x :: x in r ==> p(x) && x in s
    ensures forall x :: x in s && p(x) ==> x in r
  {
    if s == [] then [] else (if p(s[0]) then [s[0]] else []) + Filter(s[1..], p)
  }

  /** Where the `i`-th survivor of a filter came from. */
  lemma {:induction false} FilterSource<T>(s: seq<T>, p: T -> bool, i: nat) returns (k: nat)
    requires i < |Filter(s, p)|
    ensures k < |s| && s[k] == Filter(s, p)[i]
  {
    if p(s[0]) {
      if i == 0 { k := 0; } else { k := FilterSource(s[1..], p, i - 1); k := k + 1; }
    } else {
      k := FilterSource(s[1..], p, i);
      k := k + 1;
    }
  }

  lemma FilterSingleton<T>(x: T, p: T -> bool)
    ensures Filter([x], p) == if p(x) then [x] else []
  {
    assert [x][1..] == [];
  }

  lemma {:induction false} FilterConcat<T>(a: seq<T>, b: seq<T>, p: T -> bool)
    ensures Filter(a + b, p) == Filter(a, p) + Filter(b, p)
  {
    if a != [] {
      var h := if p(a[0]) then [a[0]] else [];
      calc {
        Filter(a + b, p);
        { assert (a + b)[1..] == a[1..] + b; assert (a + b)[0] == a[0]; }
        h + Filter(a[1..] + b, p);
        { FilterConcat(a[1..], b, p); }
        h + (Filter(a[1..], p) + Filter(b, p));
        (h + Filter(a[1..], p)) + Filter(b, p);
      }
    } else {
      assert a + b == b;
    }
  }

  function Map<T, U>(s: seq<T>, f: T -> U): (r: seq<U>)
    ensures |r| == |s| && forall i :: 0 <= i < |s| ==> r[i] == f(s[i])
  {
    seq(|s|, i requires 0 <= i < |s| => f(s[i]))
  }

  lemma MapSingleton<T, U>(x: T, f: T -> U)
    ensures Map([x], f) == [f(x)]
  {
  }

  lemma MapConcat<T, U>(a: seq<T>, b: seq<T>, f: T -> U)
    ensures Map(a + b, f) == Map(a, f) + Map(b, f)
  {
  }

  /** `s.replace(/\*\*\/g, "")`: drops every `**`, scanning left to right. */
  function RemoveDoubleStars(s: string): (r: string)
    ensures |r| <= |s|
    ensures '*' !in s ==> r == s
  {
    if |s| >= 2 && s[0] == '*' && s[1] == '*' then RemoveDoubleStars(s[2..])
    else if s == [] then []
    else [s[0]] + RemoveDoubleStars(s[1..])
  }

  /** No `**` survives the global replacement. */
  lemma {:induction false} RemoveDoubleStarsComplete(s: string)
    ensures forall i :: 0 <= i < |RemoveDoubleStars(s)| - 1 ==>
      !(RemoveDoubleStars(s)[i] == '*' && RemoveDoubleStars(s)[i + 1] == '*')
  {
    if |s| >= 2 && s[0] == '*' && s[1] == '*' {
      RemoveDoubleStarsComplete(s[2..]);
    } else if s != [] {
      RemoveDoubleStarsComplete(s[1..]);
      var t := RemoveDoubleStars(s[1..]);
      if s[0] == '*' && t != [] {
        // s[1] is not a star, and it is the first kept character of the rest
        assert |s| >= 2 && s[1] != '*';
        assert t[0] == s[1];
      }
    }
  }

  lemma ConcatAssoc<T>(a: seq<T>, b: seq<T>, c: seq<T>)
    ensures (a + b) + c == a + (b + c)
  {
  }

  /** A `**` starts at position `i`. */
  predicate PairAt(s: string, i: nat) { i + 1 < |s| && s[i] == '*' && s[i + 1] == '*' }

  /** Text without a `**` is unchanged; in particular a lone `*` is kept. */
  lemma {:induction false} RemoveDoubleStarsWithoutPair(s: string)
    requires forall i :: 0 <= i < |s| ==> !PairAt(s, i)
    ensures RemoveDoubleStars(s) == s
  {
    if s != [] {
      assert !PairAt(s, 0);
      forall i | 0 <= i < |s[1..]| ensures !PairAt(s[1..], i) {
        assert !PairAt(s, i + 1);
      }
      RemoveDoubleStarsWithoutPair(s[1..]);
    }
  }

  /** From position `k` on, the scan keeps everything up to the next `**` at `i`,
      drops that pair and resumes after it. */
  lemma {:induction false} RemoveDoubleStarsFrom(s: string, k: nat, i: nat)
    requires k <= i && PairAt(s, i)
    requires forall j :: k <= j < i ==> !PairAt(s, j)
    ensures RemoveDoubleStars(s[k..]) == s[k..i] + RemoveDoubleStars(s[i + 2..])
    decreases i - k
  {
    var u := s[k..];
    if k == i {
      assert |u| >= 2 && u[0] == '*' && u[1] == '*';
      assert u[2..] == s[i + 2..];
    } else {
      var rest := RemoveDoubleStars(s[i + 2..]);
      assert !PairAt(s, k);
      assert u[0] == s[k] && u[1..] == s[k + 1..];
      assert RemoveDoubleStars(u) == [s[k]] + RemoveDoubleStars(s[k + 1..]);
      RemoveDoubleStarsFrom(s, k + 1, i);
      assert s[k..i] == [s[k]] + s[k + 1..i];
      ConcatAssoc([s[k]], s[k + 1..i], rest);
    }
  }

  /** The leftmost `**` goes, the text before it is kept, and the scan resumes after it. */
  lemma RemoveDoubleStarsAt(s: string, i: nat)
    requires PairAt(s, i)
    requires forall j :: 0 <= j < i ==> !PairAt(s, j)
    ensures RemoveDoubleStars(s) == s[..i] + RemoveDoubleStars(s[i + 2..])
  {
    RemoveDoubleStarsFrom(s, 0, i);
    assert s[0..] == s;
  }

  predicate NotStar(c: char) { c != '*' }

  /** Only stars go: every other character is kept, in order. */
  lemma {:induction false} RemoveDoubleStarsKeepsOthers(s: string)
    ensures Filter(RemoveDoubleStars(s), NotStar) == Filter(s, NotStar)
  {
    if |s| >= 2 && s[0] == '*' && s[1] == '*' {
      RemoveDoubleStarsKeepsOthers(s[2..]);
      assert s[1..][1..] == s[2..];
      assert Filter(s, NotStar) == Filter(s[1..], NotStar) == Filter(s[2..], NotStar);
    } else if s != [] {
      RemoveDoubleStarsKeepsOthers(s[1..]);
      var t := RemoveDoubleStars(s[1..]);
      assert ([s[0]] + t)[0] == s[0] && ([s[0]] + t)[1..] == t;
    }
  }

  function DigitChar(d: nat): char
    requires d < 10
  {
    ('0' as int + d) as char
  }

  /** Decimal rendering of a natural number, as a template literal writes it. */
  function NatToString(n: nat): (r: string)
    ensures |r| >= 1
    ensures forall i :: 0 <= i < |r| ==> '0' <= r[i] <= '9'
    ensures n > 0 ==> r[0] != '0'
  {
    if n < 10 then [DigitChar(n)] else NatToString(n / 10) + [DigitChar(n % 10)]
  }

  /** The number a string of decimal digits denotes. */
  function DigitsValue(s: string): nat
    requires forall i :: 0 <= i < |s| ==> '0' <= s[i] <= '9'
  {
    if s == [] then 0 else 10 * DigitsValue(s[..|s| - 1]) + (s[|s| - 1] as int - '0' as int)
  }

  /** The rendering reads back as the number it renders. */
  lemma {:induction false} NatToStringValue(n: nat)
    ensures DigitsValue(NatToString(n)) == n
  {
    var r := NatToString(n);
    if n < 10 {
      assert r[..0] == [];
    } else {
      NatToStringValue(n / 10);
      assert r[..|r| - 1] == NatToString(n / 10);
    }
  }

  /** The truncation every formatter applies: a value longer than `cap`
      characters becomes its first `cap` characters followed by `...`. */
  function Truncate(v: string, cap: nat): (r: string)
    ensures |r| <= cap + 3
    ensures |v| <= cap ==> r == v
    ensures |v| > cap ==> |r| == cap + 3 && r[..cap] == v[..cap] && r[cap..] == "..."
  {
    if |v| > cap then v[..cap] + "..." else v
  }
}
