/**
 * The string primitives the extensions and scripts rely on, written out over
 * `seq<char>`: JavaScript's `trim`, `toLowerCase`, `startsWith`, `includes` and
 * `split`, Python's `strip` and `split(sep, 1)`, and decimal rendering of
 * integers as `str(int)` and template literals produce it.
 */
module Text {
  import opened Results

  // ---------------------------------------------------------------------------
  // Whitespace and trimming
  // ---------------------------------------------------------------------------

  /** The code points `String.prototype.trim` removes (WhiteSpace and LineTerminator). */
  predicate IsJsSpace(c: char) {
    c == '\t' || c == '\n' || c == '\U{000B}' || c == '\U{000C}' || c == '\r' || c == ' '
    || c == '\U{00A0}' || c == '\U{1680}' || ('\U{2000}' <= c <= '\U{200A}')
    || c == '\U{2028}' || c == '\U{2029}' || c == '\U{202F}' || c == '\U{205F}'
    || c == '\U{3000}' || c == '\U{FEFF}'
  }

  /** The code points for which Python's `str.isspace` holds, so `str.strip()` removes them. */
  predicate IsPySpace(c: char) {
    c == '\t' || c == '\n' || c == '\U{000B}' || c == '\U{000C}' || c == '\r'
    || ('\U{001C}' <= c <= '\U{001F}') || c == ' ' || c == '\U{0085}' || c == '\U{00A0}'
    || c == '\U{1680}' || ('\U{2000}' <= c <= '\U{200A}') || c == '\U{2028}'
    || c == '\U{2029}' || c == '\U{202F}' || c == '\U{205F}' || c == '\U{3000}'
  }

  predicate AllSpace(s: string, ws: char -> bool) {
    forall i :: 0 <= i < |s| ==> ws(s[i])
  }

  /** Neither starts nor ends with a whitespace character. */
  predicate Bare(s: string, ws: char -> bool) {
    s == [] || (!ws(s[0]) && !ws(s[|s| - 1]))
  }

  /** Drops the leading run of whitespace: what is removed is all whitespace, what is left does not start with any. */
  function TrimStart(s: string, ws: char -> bool): (r: string)
    ensures |r| <= |s| && r == s[|s| - |r|..]
    ensures AllSpace(s[..|s| - |r|], ws)
    ensures r == [] || !ws(r[0])
  {
    if |s| > 0 && ws(s[0]) then
      var r := TrimStart(s[1..], ws);
      DropOneSpace(s, r, ws);
      r
    else s
  }

  /** What is left after one more leading whitespace character is still a suffix, after whitespace only. */
  lemma DropOneSpace(s: string, r: string, ws: char -> bool)
    requires |s| > 0 && ws(s[0]) && |r| <= |s| - 1
    requires r == s[1..][|s| - 1 - |r|..] && AllSpace(s[1..][..|s| - 1 - |r|], ws)
    ensures r == s[|s| - |r|..] && AllSpace(s[..|s| - |r|], ws)
  {
    var n := |s| - |r|;
    assert s[1..][|s| - 1 - |r|..] == s[n..];
    forall k | 0 <= k < n ensures ws(s[..n][k]) {
      if k > 0 { assert s[..n][k] == s[1..][..n - 1][k - 1]; }
    }
  }

  /** Drops the trailing run of whitespace: what is removed is all whitespace, what is left does not end with any. */
  function TrimEnd(s: string, ws: char -> bool): (r: string)
    ensures |r| <= |s| && r == s[..|r|]
    ensures AllSpace(s[|r|..], ws)
    ensures r == [] || !ws(r[|r| - 1])
  {
    if |s| > 0 && ws(s[|s| - 1]) then
      var r := TrimEnd(s[..|s| - 1], ws);
      assert s[..|s| - 1][|r|..] + [s[|s| - 1]] == s[|r|..];
      r
    else s
  }

  /** Both ends trimmed; the result is a slice of `s` with no whitespace at either end. */
  function Trim(s: string, ws: char -> bool): (r: string)
    ensures Bare(r, ws)
    ensures |r| <= |s|
  {
    var t := TrimStart(s, ws);
    var r := TrimEnd(t, ws);
    assert r != [] ==> r[0] == t[0];
    r
  }

  /** `s.trim()` in JavaScript. */
  function JsTrim(s: string): string { Trim(s, IsJsSpace) }

  /** `s.strip()` in Python. */
  function PyStrip(s: string): string { Trim(s, IsPySpace) }

  lemma {:induction false} TrimStartAllSpace(s: string, ws: char -> bool)
    requires AllSpace(s, ws)
    ensures TrimStart(s, ws) == []
    decreases |s|
  {
    if |s| > 0 {
      assert ws(s[0]);
      TrimStartAllSpace(s[1..], ws);
    }
  }

  lemma {:induction false} TrimStartPadded(a: string, t: string, ws: char -> bool)
    requires AllSpace(a, ws) && (t == [] || !ws(t[0]))
    ensures TrimStart(a + t, ws) == t || (t == [] && TrimStart(a, ws) == [])
    decreases |a|
  {
    if a == [] {
      assert a + t == t;
    } else {
      assert (a + t)[0] == a[0];
      assert (a + t)[1..] == a[1..] + t;
      TrimStartPadded(a[1..], t, ws);
    }
  }

  lemma {:induction false} TrimEndPadded(t: string, b: string, ws: char -> bool)
    requires AllSpace(b, ws) && (t == [] || !ws(t[|t| - 1]))
    ensures TrimEnd(t + b, ws) == t
    decreases |b|
  {
    if b == [] {
      assert t + b == t;
    } else {
      var n := |t + b|;
      assert (t + b)[n - 1] == b[|b| - 1];
      assert (t + b)[..n - 1] == t + b[..|b| - 1];
      TrimEndPadded(t, b[..|b| - 1], ws);
    }
  }

  /** Whitespace around a bare text is exactly what trimming removes. */
  lemma TrimPadded(a: string, t: string, b: string, ws: char -> bool)
    requires AllSpace(a, ws) && AllSpace(b, ws) && Bare(t, ws)
    ensures Trim(a + t + b, ws) == t
  {
    if t == [] {
      assert a + t + b == a + b;
      assert AllSpace(a + b, ws) by {
        forall i | 0 <= i < |a + b| ensures ws((a + b)[i]) {
          if i < |a| { assert (a + b)[i] == a[i]; } else { assert (a + b)[i] == b[i - |a|]; }
        }
      }
      TrimStartAllSpace(a + b, ws);
    } else {
      assert a + t + b == a + (t + b);
      assert (t + b)[0] == t[0];
      TrimStartPadded(a, t + b, ws);
      TrimEndPadded(t, b, ws);
    }
  }

  /** Every result of trimming is a slice of the input with only whitespace on either side of it. */
  lemma TrimSplits(s: string, ws: char -> bool) returns (i: nat)
    ensures var r := Trim(s, ws);
            i + |r| <= |s| && r == s[i..i + |r|] && AllSpace(s[..i], ws) && AllSpace(s[i + |r|..], ws)
  {
    var t := TrimStart(s, ws);
    i := |s| - |t|;
    TrimIsBothEnds(s, ws);
    SliceOfSlice(s, t, Trim(s, ws), ws);
  }

  lemma TrimIsBothEnds(s: string, ws: char -> bool)
    ensures Trim(s, ws) == TrimEnd(TrimStart(s, ws), ws)
  {
  }

  /** A prefix `r` of a suffix `t` of `s`, seen as a slice of `s` itself. */
  lemma SliceOfSlice(s: string, t: string, r: string, ws: char -> bool)
    requires |t| <= |s| && t == s[|s| - |t|..] && |r| <= |t| && r == t[..|r|] && AllSpace(t[|r|..], ws)
    ensures var i := |s| - |t|; r == s[i..i + |r|] && AllSpace(s[i + |r|..], ws)
  {
    var i := |s| - |t|;
    assert s[i + |r|..] == t[|r|..];
  }

  /** Trimming leaves nothing exactly when the text is all whitespace. */
  lemma TrimEmptyIff(s: string, ws: char -> bool)
    ensures Trim(s, ws) == [] <==> AllSpace(s, ws)
  {
    var i := TrimSplits(s, ws);
    if Trim(s, ws) == [] {
      assert s == s[..i] + s[i..];
      forall k | 0 <= k < |s| ensures ws(s[k]) {
        if k < i { assert s[..i][k] == s[k]; } else { assert s[i..][k - i] == s[k]; }
      }
    }
    if AllSpace(s, ws) {
      TrimStartAllSpace(s, ws);
    }
  }

  lemma TrimBareIsIdentity(t: string, ws: char -> bool)
    requires Bare(t, ws)
    ensures Trim(t, ws) == t
  {
    assert [] + t + [] == t;
    TrimPadded([], t, [], ws);
  }

  // ---------------------------------------------------------------------------
  // Case
  // ---------------------------------------------------------------------------

  /** `toLowerCase` on one character; only the ASCII letters `A`..`Z` are mapped. */
  function LowerChar(c: char): (d: char)
    ensures ('A' <= c <= 'Z') == (d != c)
  {
    if 'A' <= c <= 'Z' then (c as int + 32) as char else c
  }

  function Lower(s: string): (r: string)
    ensures |r| == |s|
    ensures forall i :: 0 <= i < |s| ==> r[i] == LowerChar(s[i])
  {
    seq(|s|, i requires 0 <= i < |s| => LowerChar(s[i]))
  }

  lemma {:induction false} LowerAppend(a: string, b: string)
    ensures Lower(a + b) == Lower(a) + Lower(b)
  {
    assert forall i :: 0 <= i < |a + b| ==> Lower(a + b)[i] == (Lower(a) + Lower(b))[i];
  }

  lemma LowerSlice(s: string, i: nat, j: nat)
    requires i <= j <= |s|
    ensures Lower(s[i..j]) == Lower(s)[i..j]
  {
    assert forall k :: 0 <= k < j - i ==> Lower(s[i..j])[k] == Lower(s)[i..j][k];
  }

  lemma LowerPrefix(s: string, i: nat)
    requires i <= |s|
    ensures Lower(s[..i]) == Lower(s)[..i]
  {
    assert forall k :: 0 <= k < i ==> Lower(s[..i])[k] == Lower(s)[..i][k];
  }

  lemma LowerSuffix(s: string, j: nat)
    requires j <= |s|
    ensures Lower(s[j..]) == Lower(s)[j..]
  {
    assert forall k :: 0 <= k < |s| - j ==> Lower(s[j..])[k] == Lower(s)[j..][k];
  }

  lemma LowerCharKeepsSpace(c: char)
    ensures IsJsSpace(LowerChar(c)) <==> IsJsSpace(c)
  {
    if 'A' <= c <= 'Z' {
      assert 'a' <= LowerChar(c) <= 'z';
    }
  }

  /** Lower-casing can neither create nor remove whitespace, in either language's sense. */
  lemma LowerKeepsSpace(s: string)
    ensures AllSpace(Lower(s), IsJsSpace) <==> AllSpace(s, IsJsSpace)
    ensures forall i :: 0 <= i < |s| ==> (IsJsSpace(Lower(s)[i]) <==> IsJsSpace(s[i]))
  {
    forall i | 0 <= i < |s| ensures IsJsSpace(Lower(s)[i]) <==> IsJsSpace(s[i]) {
      LowerCharKeepsSpace(s[i]);
    }
  }

  // ---------------------------------------------------------------------------
  // Prefixes, occurrences, searching
  // ---------------------------------------------------------------------------

  predicate StartsWith(s: string, p: string) {
    |p| <= |s| && s[..|p|] == p
  }

  /** `p` occurs in `s` at index `k`. */
  predicate Occurs(s: string, p: string, k: int) {
    0 <= k && k + |p| <= |s| && s[k..k + |p|] == p
  }

  lemma OccursShift(s: string, p: string, k: nat)
    requires |s| > 0
    ensures Occurs(s, p, k + 1) <==> Occurs(s[1..], p, k)
  {
    if 0 <= k && k + 1 + |p| <= |s| {
      assert s[k + 1..k + 1 + |p|] == s[1..][k..k + |p|];
    }
  }

  /** The index of the first occurrence of `p` in `s` (`indexOf`), if any. */
  function Find(s: string, p: string): (r: Option<nat>)
    ensures r.Some? ==> Occurs(s, p, r.value) && forall k :: 0 <= k < r.value ==> !Occurs(s, p, k)
    ensures r.None? ==> forall k :: !Occurs(s, p, k)
    decreases |s|
  {
    if StartsWith(s, p) then
      assert s[0..|p|] == s[..|p|];
      Some(0)
    else if |s| == 0 then
      None
    else
      var rest := Find(s[1..], p);
      assert !Occurs(s, p, 0);
      assert forall k: nat :: Occurs(s, p, k + 1) <==> Occurs(s[1..], p, k) by {
        forall k: nat ensures Occurs(s, p, k + 1) <==> Occurs(s[1..], p, k) { OccursShift(s, p, k); }
      }
      assert forall k :: Occurs(s, p, k) ==> k == 0 || Occurs(s[1..], p, k - 1);
      match rest
      case Some(i) => Some(i + 1)
      case None => None
  }

  /** `hay.includes(needle)` in JavaScript: `needle` occurs somewhere in `hay`. */
  predicate Contains(hay: string, needle: string) {
    Find(hay, needle).Some?
  }

  lemma ContainsIff(hay: string, needle: string)
    ensures Contains(hay, needle) <==> exists k :: Occurs(hay, needle, k)
  {
  }

  /** `s.split(sep)` in JavaScript for a non-empty separator: every piece between occurrences, left to right. */
  function Split(s: string, sep: string): (parts: seq<string>)
    requires |sep| > 0
    ensures |parts| >= 1
    ensures parts[0] == if Find(s, sep).Some? then s[..Find(s, sep).value] else s
    decreases |s|
  {
    match Find(s, sep)
    case None => [s]
    case Some(i) => [s[..i]] + Split(s[i + |sep|..], sep)
  }

  /** The first piece of a split contains no occurrence of the separator. */
  lemma SplitFirstHasNoSeparator(s: string, sep: string)
    requires |sep| > 0
    ensures !Contains(Split(s, sep)[0], sep)
  {
    var first := Split(s, sep)[0];
    forall k | Occurs(first, sep, k) ensures false {
      assert first[k..k + |sep|] == s[k..k + |sep|];
      assert Occurs(s, sep, k);
    }
  }

  /** A text without the separator splits into itself alone. */
  lemma SplitNoSeparator(s: string, sep: string)
    requires |sep| > 0 && !Contains(s, sep)
    ensures Split(s, sep) == [s]
  {
  }

  /** A leading separator produces an empty first piece and nothing else changes. */
  lemma SplitLeadingSeparator(sep: string, b: string)
    requires |sep| > 0
    ensures Split(sep + b, sep) == [""] + Split(b, sep)
  {
    assert StartsWith(sep + b, sep) by { assert (sep + b)[..|sep|] == sep; }
    assert (sep + b)[|sep|..] == b;
  }

  /** Splitting on a single character cuts at its first occurrence. */
  lemma SplitAtChar(a: string, c: char, b: string)
    requires c !in a
    ensures Split(a + [c] + b, [c]) == [a] + Split(b, [c])
  {
    var s := a + [c] + b;
    SingleCharOccurs(s, c, |a|);
    var r := Find(s, [c]);
    if r.value < |a| {
      SingleCharOccurs(s, c, r.value);
    }
    assert s[..|a|] == a && s[|a| + 1..] == b;
  }

  /** A text whose first character is not the separator's first cuts at the separator that follows it. */
  lemma SplitBeforeSeparator(a: string, sep: string, b: string)
    requires |sep| > 0 && sep[0] !in a
    ensures Split(a + sep + b, sep) == [a] + Split(b, sep)
  {
    var s := a + sep + b;
    assert Occurs(s, sep, |a|) by { assert s[|a|..|a| + |sep|] == sep; }
    forall k | 0 <= k < |a| ensures !Occurs(s, sep, k) {
      if k + |sep| <= |s| { assert s[k..k + |sep|][0] == a[k]; }
    }
    assert s[..|a|] == a && s[|a| + |sep|..] == b;
  }

  /** The first piece of a split is a slice of the text, so it holds no character the text does not. */
  lemma SplitFirstWithin(s: string, sep: string, c: char)
    requires |sep| > 0 && c !in s
    ensures c !in Split(s, sep)[0]
  {
    if Find(s, sep).Some? {
      var first := Split(s, sep)[0];
      forall k | 0 <= k < |first| ensures first[k] != c { assert first[k] == s[k]; }
    }
  }

  /** Trimming keeps out every character the text does not hold. */
  lemma TrimWithin(s: string, ws: char -> bool, c: char)
    requires c !in s
    ensures c !in Trim(s, ws)
  {
    var i := TrimSplits(s, ws);
    var r := Trim(s, ws);
    forall k | 0 <= k < |r| ensures r[k] != c { assert r[k] == s[i + k]; }
  }

  /** `s.split(sep, 1)` in Python, as the pair a two-name unpacking needs; `None` when `sep` is absent. */
  function SplitOnce(s: string, sep: string): (r: Option<(string, string)>)
    requires |sep| > 0
    ensures r.Some? <==> Contains(s, sep)
    ensures r.Some? ==> s == r.value.0 + sep + r.value.1 && !Contains(r.value.0, sep)
  {
    match Find(s, sep)
    case None => None
    case Some(i) =>
      assert s == s[..i] + s[i..i + |sep|] + s[i + |sep|..];
      assert !Contains(s[..i], sep) by {
        forall k | Occurs(s[..i], sep, k) ensures false {
          assert s[..i][k..k + |sep|] == s[k..k + |sep|];
          assert Occurs(s, sep, k);
        }
      }
      Some((s[..i], s[i + |sep|..]))
  }

  lemma SingleCharOccurs(s: string, c: char, k: int)
    ensures Occurs(s, [c], k) <==> 0 <= k < |s| && s[k] == c
  {
    if 0 <= k < |s| { assert s[k..k + 1] == [s[k]]; }
  }

  lemma ContainsChar(s: string, c: char)
    ensures Contains(s, [c]) <==> c in s
  {
    if c in s {
      var k :| 0 <= k < |s| && s[k] == c;
      SingleCharOccurs(s, c, k);
    }
    if Contains(s, [c]) {
      var k := Find(s, [c]).value;
      SingleCharOccurs(s, c, k);
    }
  }

  // ---------------------------------------------------------------------------
  // Decimal numerals
  // ---------------------------------------------------------------------------

  predicate IsDigit(c: char) { '0' <= c <= '9' }

  predicate AllDigits(s: string) { forall i :: 0 <= i < |s| ==> IsDigit(s[i]) }

  function DigitChar(d: nat): (c: char)
    requires d < 10
    ensures IsDigit(c) && c as int - '0' as int == d
  {
    ('0' as int + d) as char
  }

  /** The value of a string of ASCII digits, most significant first. */
  function DecimalValue(s: string): nat
    requires AllDigits(s)
  {
    if s == [] then 0
    else DecimalValue(s[..|s| - 1]) * 10 + (s[|s| - 1] as int - '0' as int)
  }

  /** `String(n)` / `str(n)` for a natural number: its shortest decimal numeral. */
  function NatToString(n: nat): (r: string)
    ensures |r| >= 1 && AllDigits(r)
    ensures r[0] == '0' ==> n == 0
    decreases n
  {
    if n < 10 then [DigitChar(n)] else NatToString(n / 10) + [DigitChar(n % 10)]
  }

  /** `str(i)` in Python for an int: a minus sign for negative values. */
  function IntToString(i: int): string {
    if i < 0 then "-" + NatToString(-i) else NatToString(i)
  }

  /** Rendering a number and reading it back gives the number: the numeral is unambiguous. */
  lemma {:induction false} DecimalRoundTrip(n: nat)
    ensures DecimalValue(NatToString(n)) == n
    decreases n
  {
    if n >= 10 {
      DecimalRoundTrip(n / 10);
      var s := NatToString(n);
      assert s[..|s| - 1] == NatToString(n / 10);
    }
  }

  lemma NatToStringInjective(m: nat, n: nat)
    requires NatToString(m) == NatToString(n)
    ensures m == n
  {
    DecimalRoundTrip(m);
    DecimalRoundTrip(n);
  }

  /** `parts.join(sep)` / `sep.join(parts)`. */
  function Join(parts: seq<string>, sep: string): string {
    if parts == [] then ""
    else if |parts| == 1 then parts[0]
    else parts[0] + sep + Join(parts[1..], sep)
  }

  /** Text put around a string keeps every occurrence in it. */
  lemma ContainsInside(a: string, x: string, b: string, p: string)
    requires Contains(x, p)
    ensures Contains(a + x + b, p)
  {
    ContainsIff(x, p);
    var k :| Occurs(x, p, k);
    var s := a + x + b;
    assert s[|a| + k..|a| + k + |p|] == x[k..k + |p|];
    assert Occurs(s, p, |a| + k);
    ContainsIff(s, p);
  }

  lemma ContainsSelf(p: string)
    ensures Contains(p, p)
  {
    assert Occurs(p, p, 0);
    ContainsIff(p, p);
  }

  /** Every part occurs in the joined text. */
  lemma {:induction false} JoinHoldsParts(parts: seq<string>, sep: string, k: nat)
    requires k < |parts|
    ensures Contains(Join(parts, sep), parts[k])
    decreases |parts|
  {
    if |parts| == 1 {
      ContainsSelf(parts[0]);
    } else if k == 0 {
      ContainsSelf(parts[0]);
      ContainsInside("", parts[0], sep + Join(parts[1..], sep), parts[0]);
      assert "" + parts[0] + (sep + Join(parts[1..], sep)) == Join(parts, sep);
    } else {
      JoinHoldsParts(parts[1..], sep, k - 1);
      ContainsInside(parts[0] + sep, Join(parts[1..], sep), "", parts[k]);
      assert parts[0] + sep + Join(parts[1..], sep) + "" == Join(parts, sep);
    }
  }
}
