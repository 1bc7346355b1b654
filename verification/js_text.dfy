/**
 * The JavaScript string built-ins that the entitlement logic depends on:
 * `String.prototype.trim`, `String.prototype.split` with a one-character
 * separator, `Number.prototype.toString(radix)` on non-negative integers,
 * `parseInt(s, 10)` and `String.prototype.startsWith`.
 */
module JsText {
  import opened Optional

  // ---------------------------------------------------------------------------
  // White space and trim()
  // ---------------------------------------------------------------------------

  /** The ECMAScript WhiteSpace and LineTerminator code points, which trim() strips. */
  const WhitespaceChars: set<char> := {
    '\t', '\n', '\U{000B}', '\U{000C}', '\r', ' ', '\U{00A0}', '\U{1680}',
    '\U{2000}', '\U{2001}', '\U{2002}', '\U{2003}', '\U{2004}', '\U{2005}',
    '\U{2006}', '\U{2007}', '\U{2008}', '\U{2009}', '\U{200A}',
    '\U{2028}', '\U{2029}', '\U{202F}', '\U{205F}', '\U{3000}', '\U{FEFF}'
  }

  predicate IsWhitespace(c: char) {
    c in WhitespaceChars
  }

  predicate AllWhitespace(s: string) {
    forall i :: 0 <= i < |s| ==> IsWhitespace(s[i])
  }

  /** `s` without its leading white space: a suffix of `s`. */
  function TrimStart(s: string): (r: string)
    ensures |r| <= |s| && r == s[|s| - |r|..]
  {
    if s != [] && IsWhitespace(s[0]) then TrimStart(s[1..]) else s
  }

  /** What trimStart removes is white space, and what it keeps does not start with white space. */
  lemma TrimStartShape(s: string)
    ensures AllWhitespace(s[..|s| - |TrimStart(s)|])
    ensures TrimStart(s) == [] || !IsWhitespace(TrimStart(s)[0])
  {
    TrimStartDropsWhitespace(s);
    TrimStartKeepsNoLead(s);
  }

  lemma {:induction false} TrimStartDropsWhitespace(s: string)
    ensures AllWhitespace(s[..|s| - |TrimStart(s)|])
  {
    if s != [] && IsWhitespace(s[0]) {
      var r := TrimStart(s[1..]);
      TrimStartDropsWhitespace(s[1..]);
      var k := |s| - |r|;
      assert TrimStart(s) == r && 1 <= k <= |s|;
      assert forall i :: 1 <= i < k ==> s[..k][i] == s[1..][..k - 1][i - 1];
    }
  }

  lemma {:induction false} TrimStartKeepsNoLead(s: string)
    ensures TrimStart(s) == [] || !IsWhitespace(TrimStart(s)[0])
  {
    if s != [] && IsWhitespace(s[0]) {
      TrimStartKeepsNoLead(s[1..]);
    }
  }

  /** `s` without its trailing white space: a prefix of `s`. */
  function TrimEnd(s: string): (r: string)
    ensures |r| <= |s| && r == s[..|r|]
  {
    if s != [] && IsWhitespace(s[|s| - 1]) then TrimEnd(s[..|s| - 1]) else s
  }

  /** What trimEnd removes is white space, and what it keeps does not end with white space. */
  lemma {:induction false} TrimEndShape(s: string)
    ensures AllWhitespace(s[|TrimEnd(s)|..])
    ensures TrimEnd(s) == [] || !IsWhitespace(TrimEnd(s)[|TrimEnd(s)| - 1])
  {
    if s != [] && IsWhitespace(s[|s| - 1]) {
      var r := TrimEnd(s[..|s| - 1]);
      TrimEndShape(s[..|s| - 1]);
      assert s[|r|..] == s[..|s| - 1][|r|..] + [s[|s| - 1]];
    }
  }

  /** String.prototype.trim: white space removed at both ends, a slice of `s`. */
  function Trim(s: string): (r: string)
    ensures |r| <= |s|
  {
    TrimEnd(TrimStart(s))
  }

  /** trim() keeps the slice `s[k..k + |r|]`, where `k` is the length of the leading white space. */
  lemma TrimIsSlice(s: string)
    ensures var r, k := Trim(s), |s| - |TrimStart(s)|;
      k + |r| <= |s| && r == s[k..k + |r|]
  {
    var t := TrimStart(s);
    SliceOfSlice(s, t, |s| - |t|, |TrimEnd(t)|);
  }

  /** What trim() keeps neither starts nor ends with white space. */
  lemma TrimKeepsNoEdgeWhitespace(s: string)
    ensures var r := Trim(s); r == [] || (!IsWhitespace(r[0]) && !IsWhitespace(r[|r| - 1]))
  {
    var t := TrimStart(s);
    var r := TrimEnd(t);
    TrimStartShape(s);
    TrimEndShape(t);
    assert r != [] ==> r[0] == t[0];
  }

  /** Slicing the suffix `s[k..]` is slicing `s` shifted by `k`. */
  lemma SliceOfSlice(s: string, t: string, k: nat, m: nat)
    requires k <= |s| && t == s[k..] && m <= |t|
    ensures t[..m] == s[k..k + m] && t[m..] == s[k + m..]
  {
  }

  lemma {:induction false} TrimStartPadded(p: string, m: string)
    requires AllWhitespace(p)
    requires m == [] || !IsWhitespace(m[0])
    ensures TrimStart(p + m) == m
    decreases |p|
  {
    if p != [] {
      assert (p + m)[0] == p[0] && IsWhitespace(p[0]);
      assert (p + m)[1..] == p[1..] + m;
      TrimStartPadded(p[1..], m);
    } else {
      assert p + m == m;
    }
  }

  lemma {:induction false} TrimEndPadded(m: string, q: string)
    requires AllWhitespace(q)
    requires m == [] || !IsWhitespace(m[|m| - 1])
    ensures TrimEnd(m + q) == m
    decreases |q|
  {
    if q != [] {
      assert (m + q)[..|m + q| - 1] == m + q[..|q| - 1];
      TrimEndPadded(m, q[..|q| - 1]);
    }
  }

  /**
   * Characterisation of trim(): padding a string that neither starts nor
   * ends with white space by white space on both sides does not change what
   * trim() returns.
   */
  lemma {:induction false} TrimOfPadded(p: string, m: string, q: string)
    requires AllWhitespace(p) && AllWhitespace(q)
    requires m == [] || (!IsWhitespace(m[0]) && !IsWhitespace(m[|m| - 1]))
    ensures Trim(p + m + q) == m
  {
    if m == [] {
      assert p + m + q == p + q + [];
      assert AllWhitespace(p + q);
      TrimStartPadded(p + q, []);
    } else {
      assert p + m + q == p + (m + q);
      TrimStartPadded(p, m + q);
      TrimEndPadded(m, q);
    }
  }

  /** trim() is idempotent. */
  lemma TrimIdempotent(s: string)
    ensures Trim(Trim(s)) == Trim(s)
  {
    TrimKeepsNoEdgeWhitespace(s);
    TrimOfTrimmed(Trim(s));
  }

  /** A string without white space at either end is its own trim. */
  lemma TrimOfTrimmed(m: string)
    requires m == [] || (!IsWhitespace(m[0]) && !IsWhitespace(m[|m| - 1]))
    ensures Trim(m) == m
  {
    assert TrimStart(m) == m;
    assert TrimEnd(m) == m;
  }

  // ---------------------------------------------------------------------------
  // split() with a one-character separator, and its inverse join()
  // ---------------------------------------------------------------------------

  /**
   * String.prototype.split(sep) for a one-character separator: the maximal
   * separator-free pieces of `s`, one more piece than there are separators.
   */
  function Split(s: string, sep: char): (parts: seq<string>)
    ensures |parts| >= 1
  {
    if s == [] then [[]]
    else
      var rest := Split(s[1..], sep);
      if s[0] == sep then [[]] + rest
      else [[s[0]] + rest[0]] + rest[1..]
  }

  /** split() yields one more piece than there are separators, and no piece holds one. */
  lemma {:induction false} SplitShape(s: string, sep: char)
    ensures |Split(s, sep)| == multiset(s)[sep] + 1
    ensures forall i :: 0 <= i < |Split(s, sep)| ==> sep !in Split(s, sep)[i]
  {
    if s != [] {
      var rest := Split(s[1..], sep);
      SplitShape(s[1..], sep);
      assert s == [s[0]] + s[1..];
      var parts := Split(s, sep);
      if s[0] == sep {
        assert parts == [[]] + rest;
      } else {
        assert parts == [[s[0]] + rest[0]] + rest[1..];
        forall i | 0 <= i < |parts| ensures sep !in parts[i] {
          if i > 0 { assert parts[i] == rest[i]; }
        }
      }
    }
  }

  /** Array.prototype.join(sep) on a non-empty list of strings. */
  function Join(parts: seq<string>, sep: char): string
    requires |parts| >= 1
  {
    if |parts| == 1 then parts[0] else parts[0] + [sep] + Join(parts[1..], sep)
  }

  /** Prepending a character to the first piece prepends it to the join. */
  lemma JoinExtendFirst(parts: seq<string>, c: char, sep: char)
    requires |parts| >= 1
    ensures Join([[c] + parts[0]] + parts[1..], sep) == [c] + Join(parts, sep)
  {
    var q := [[c] + parts[0]] + parts[1..];
    assert q[0] == [c] + parts[0];
    if |parts| > 1 {
      assert q[1..] == parts[1..];
      assert Join(q, sep) == ([c] + parts[0]) + [sep] + Join(parts[1..], sep);
    }
  }

  /** An empty first piece joins to a leading separator. */
  lemma JoinEmptyFirst(parts: seq<string>, sep: char)
    requires |parts| >= 1
    ensures Join([[]] + parts, sep) == [sep] + Join(parts, sep)
  {
    var q := [[]] + parts;
    assert q[1..] == parts;
  }

  /** Joining the pieces of a split with the same separator gives back the string. */
  lemma {:induction false} JoinSplit(s: string, sep: char)
    ensures Join(Split(s, sep), sep) == s
  {
    if s != [] {
      var rest := Split(s[1..], sep);
      JoinSplit(s[1..], sep);
      if s[0] == sep {
        JoinEmptyFirst(rest, sep);
      } else {
        JoinExtendFirst(rest, s[0], sep);
      }
      assert [s[0]] + s[1..] == s;
    }
  }

  /** Splitting a string that starts with a separator-free character. */
  lemma SplitCons(c: char, t: string, sep: char)
    requires c != sep
    ensures Split([c] + t, sep) == [[c] + Split(t, sep)[0]] + Split(t, sep)[1..]
  {
    assert ([c] + t)[1..] == t;
  }

  /** Splitting a string that starts with the separator. */
  lemma SplitSep(t: string, sep: char)
    ensures Split([sep] + t, sep) == [[]] + Split(t, sep)
  {
    assert ([sep] + t)[1..] == t;
  }

  /** Splitting a join of separator-free pieces gives back the pieces. */
  lemma {:induction false} SplitJoin(parts: seq<string>, sep: char)
    requires |parts| >= 1
    requires forall i :: 0 <= i < |parts| ==> sep !in parts[i]
    ensures Split(Join(parts, sep), sep) == parts
    decreases |parts|, |parts[0]|
  {
    var p := parts[0];
    if p == [] {
      if |parts| > 1 {
        var tail := parts[1..];
        assert forall i :: 0 <= i < |tail| ==> sep !in tail[i] by {
          forall i | 0 <= i < |tail| ensures sep !in tail[i] { assert tail[i] == parts[i + 1]; }
        }
        SplitJoin(tail, sep);
        assert Join(parts, sep) == [sep] + Join(tail, sep);
        SplitSep(Join(tail, sep), sep);
        assert parts == [[]] + tail;
      }
    } else {
      var shorter := [p[1..]] + parts[1..];
      forall i | 0 <= i < |shorter| ensures sep !in shorter[i] {
        if i == 0 { assert p == [p[0]] + p[1..]; } else { assert shorter[i] == parts[i]; }
      }
      SplitJoin(shorter, sep);
      assert shorter[0] == p[1..] && shorter[1..] == parts[1..];
      JoinExtendFirst(shorter, p[0], sep);
      assert p[0] in p;
      assert [p[0]] + p[1..] == p;
      assert [[p[0]] + shorter[0]] + shorter[1..] == [p] + parts[1..] == parts;
      SplitCons(p[0], Join(shorter, sep), sep);
    }
  }

  /** The string after the first separator splits into the remaining pieces. */
  lemma SplitAfterFirst(p: string, t: string, sep: char)
    requires sep !in p
    ensures Split(p + [sep] + t, sep) == [p] + Split(t, sep)
  {
    var parts := [p] + Split(t, sep);
    assert parts[1..] == Split(t, sep);
    SplitShape(t, sep);
    JoinSplit(t, sep);
    assert Join(parts, sep) == p + [sep] + t;
    SplitJoin(parts, sep);
  }

  /** A separator-free prefix of `t` is a prefix of the first piece of `t`. */
  lemma {:induction false} SplitFirstKeepsPrefix(q: string, t: string, sep: char)
    requires sep !in q
    ensures |q| <= |Split(q + t, sep)[0]| && Split(q + t, sep)[0][..|q|] == q
    decreases |q|
  {
    if q != [] {
      assert (q + t)[1..] == q[1..] + t;
      SplitFirstKeepsPrefix(q[1..], t, sep);
    }
  }

  predicate StartsWith(s: string, prefix: string) {
    |prefix| <= |s| && s[..|prefix|] == prefix
  }

  // ---------------------------------------------------------------------------
  // Number.prototype.toString(radix) and parseInt(s, 10)
  // ---------------------------------------------------------------------------

  /** The digit character for `d` in bases up to 36: 0-9 then a-z. */
  function DigitChar(d: nat): (c: char)
    requires d < 36
    ensures DigitValue(c) == d
  {
    if d < 10 then ('0' as int + d) as char else ('a' as int + d - 10) as char
  }

  /** The value of a digit character of 0-9a-z; 36 for any other character. */
  function DigitValue(c: char): (d: nat)
    ensures d <= 36
  {
    if '0' <= c <= '9' then c as int - '0' as int
    else if 'a' <= c <= 'z' then c as int - 'a' as int + 10
    else 36
  }

  predicate IsDigitIn(c: char, base: nat) { DigitValue(c) < base }

  /** Number.prototype.toString(base) on a non-negative integer: never empty. */
  function ToRadix(n: nat, base: nat): (r: string)
    requires 2 <= base <= 36
    ensures |r| >= 1
    decreases n
  {
    if n < base then [DigitChar(n)]
    else
      DivMod(n, base);
      ToRadix(n / base, base) + [DigitChar(n % base)]
  }

  /** toString(base) writes only digits of the base, and no leading zero. */
  lemma {:induction false} ToRadixDigits(n: nat, base: nat)
    requires 2 <= base <= 36
    ensures forall i :: 0 <= i < |ToRadix(n, base)| ==> IsDigitIn(ToRadix(n, base)[i], base)
    ensures |ToRadix(n, base)| > 1 ==> ToRadix(n, base)[0] != '0'
    decreases n
  {
    if n >= base {
      var q, d := n / base, n % base;
      DivMod(n, base);
      var prefix := ToRadix(q, base);
      ToRadixDigits(q, base);
      assert ToRadix(n, base) == prefix + [DigitChar(d)];
      if |prefix| == 1 {
        assert prefix[0] == DigitChar(q);
      }
    }
  }

  /** The value of a string of digits in the given base, most significant first. */
  function FromRadix(s: string, base: nat): nat {
    if s == [] then 0 else FromRadix(s[..|s| - 1], base) * base + DigitValue(s[|s| - 1])
  }

  /** Appending a digit multiplies by the base and adds the digit. */
  lemma FromRadixSnoc(s: string, c: char, base: nat)
    ensures FromRadix(s + [c], base) == FromRadix(s, base) * base + DigitValue(c)
  {
    assert (s + [c])[..|s|] == s;
  }

  /** Euclidean division by the base, as toString(base) uses it. */
  lemma DivMod(n: nat, base: nat)
    requires 2 <= base
    ensures (n / base) * base + n % base == n
    ensures 0 <= n % base < base
    ensures n >= base ==> 1 <= n / base < n
  {
  }

  /** A decimal digit is neither white space nor a sign. */
  lemma DigitIsNotSpaceOrSign(c: char)
    requires IsDigitIn(c, 10)
    ensures !IsWhitespace(c) && c != '-' && c != '+'
  {
  }

  /** Reading back what toString(base) wrote gives the number. */
  lemma {:induction false} RadixRoundTrip(n: nat, base: nat)
    requires 2 <= base <= 36
    ensures FromRadix(ToRadix(n, base), base) == n
    decreases n
  {
    if n < base {
      assert ToRadix(n, base) == [] + [DigitChar(n)];
      FromRadixSnoc([], DigitChar(n), base);
    } else {
      var q, d := n / base, n % base;
      DivMod(n, base);
      RadixRoundTrip(q, base);
      var prefix := ToRadix(q, base);
      assert ToRadix(n, base) == prefix + [DigitChar(d)];
      FromRadixSnoc(prefix, DigitChar(d), base);
      assert FromRadix(prefix, base) == q;
    }
  }

  /** Number.prototype.toString() on an integer: decimal, with a sign when negative. */
  function IntToString(i: int): (r: string)
    ensures |r| >= 1
  {
    if i < 0 then "-" + ToRadix(-i, 10) else ToRadix(i, 10)
  }

  /** The longest prefix of `s` made of decimal digits. */
  function DigitRun(s: string): (r: string)
    ensures |r| <= |s| && r == s[..|r|]
    ensures forall i :: 0 <= i < |r| ==> IsDigitIn(r[i], 10)
    ensures |r| == |s| || !IsDigitIn(s[|r|], 10)
  {
    if s != [] && IsDigitIn(s[0], 10) then
      var r := DigitRun(s[1..]);
      [s[0]] + r
    else []
  }

  /**
   * parseInt(s, 10): skip leading white space, read an optional sign and the
   * longest run of decimal digits; None stands for NaN (no digits).
   */
  function ParseInt(s: string): (r: Option<int>)
    ensures r.None? <==> DigitRun(SignStripped(TrimStart(s))) == []
  {
    var t := TrimStart(s);
    var digits := DigitRun(SignStripped(t));
    if digits == [] then None
    else
      var v: int := FromRadix(digits, 10);
      if t[0] == '-' then Some(-v) else Some(v)
  }

  /** `t` without a leading `+` or `-`. */
  function SignStripped(t: string): string {
    if t != [] && (t[0] == '-' || t[0] == '+') then t[1..] else t
  }

  /** parseInt of text that starts with neither white space, a sign nor a decimal digit is NaN. */
  lemma ParseIntNoDigits(s: string)
    requires s != [] && !IsWhitespace(s[0]) && s[0] != '-' && s[0] != '+' && !IsDigitIn(s[0], 10)
    ensures ParseInt(s) == None
  {
    assert s == [] + s;
    TrimStartPadded([], s);
    assert SignStripped(s) == s;
  }

  lemma {:induction false} DigitRunOfDigits(s: string)
    requires forall i :: 0 <= i < |s| ==> IsDigitIn(s[i], 10)
    ensures DigitRun(s) == s
  {
    if s != [] {
      DigitRunOfDigits(s[1..]);
      assert s == [s[0]] + s[1..];
    }
  }

  /** parseInt reads back every non-negative integer that toString() writes. */
  lemma ParseNatRoundTrip(n: nat)
    ensures ParseInt(ToRadix(n, 10)) == Some(n)
  {
    var s := ToRadix(n, 10);
    ToRadixDigits(n, 10);
    DigitIsNotSpaceOrSign(s[0]);
    assert s == [] + s;
    TrimStartPadded([], s);
    DigitRunOfDigits(s);
    RadixRoundTrip(n, 10);
  }

  /** parseInt reads back every negative integer that toString() writes. */
  lemma ParseNegRoundTrip(n: nat)
    requires n > 0
    ensures ParseInt("-" + ToRadix(n, 10)) == Some(0 - n as int)
  {
    var digits := ToRadix(n, 10);
    ToRadixDigits(n, 10);
    var s := "-" + digits;
    assert s == [] + s;
    TrimStartPadded([], s);
    assert TrimStart(s) == s;
    assert SignStripped(s) == s[1..] == digits;
    DigitRunOfDigits(digits);
    RadixRoundTrip(n, 10);
  }

  /** parseInt reads back every integer that toString() writes. */
  lemma ParseIntRoundTrip(i: int)
    ensures ParseInt(IntToString(i)) == Some(i)
  {
    if i < 0 {
      var n: nat := -i;
      ParseNegRoundTrip(n);
      assert IntToString(i) == "-" + ToRadix(n, 10);
    } else {
      ParseNatRoundTrip(i);
      assert IntToString(i) == ToRadix(i, 10);
    }
  }
}
