/** The JavaScript string built-ins the actions and schemas rely on:
    `String.prototype.trim`, `split` on a one-character separator, `Array.prototype.join`,
    `parseInt(s, 10)` and the decimal rendering of an integer inside a template literal. */
module Strings {
  import opened Wrappers

  /** The code points ECMAScript counts as WhiteSpace or LineTerminator: the characters
      `trim` removes and `parseInt` skips. */
  predicate IsSpace(c: char) {
    c == '\t' || c == '\n' || c == '\U{000B}' || c == '\U{000C}' || c == '\r' || c == ' '
    || c == '\U{00A0}' || c == '\U{1680}' || ('\U{2000}' <= c <= '\U{200A}')
    || c == '\U{2028}' || c == '\U{2029}' || c == '\U{202F}' || c == '\U{205F}'
    || c == '\U{3000}' || c == '\U{FEFF}'
  }

  /** No white space at either end. */
  predicate IsTrimmed(s: string) {
    s == [] || (!IsSpace(s[0]) && !IsSpace(s[|s| - 1]))
  }

  /** `t` occurs in `s` starting at index `i`. */
  predicate OccursAt(s: string, t: string, i: int) {
    0 <= i && i + |t| <= |s| && s[i..i + |t|] == t
  }

  predicate Contains(s: string, t: string) {
    exists i :: 0 <= i <= |s| && OccursAt(s, t, i)
  }

  /** Every character of `s` from `lo` up to `hi` is white space. */
  predicate SpaceBetween(s: string, lo: int, hi: int)
    requires 0 <= lo && hi <= |s|
  {
    forall k :: lo <= k < hi ==> IsSpace(s[k])
  }

  /** Scanning forward from `i`: the first index that is not white space, or `|s|`. */
  function SkipSpaces(s: string, i: nat): (j: nat)
    requires i <= |s|
    ensures i <= j <= |s| && SpaceBetween(s, i, j)
    ensures j == |s| || !IsSpace(s[j])
    decreases |s| - i
  {
    if i < |s| && IsSpace(s[i]) then SkipSpaces(s, i + 1) else i
  }

  /** Scanning backward from `j`, not below `lo`: the index after the last character that
      is not white space, or `lo`. */
  function SkipSpacesBack(s: string, lo: nat, j: nat): (e: nat)
    requires lo <= j <= |s|
    ensures lo <= e <= j && SpaceBetween(s, e, j)
    ensures e == lo || !IsSpace(s[e - 1])
    decreases j
  {
    if lo < j && IsSpace(s[j - 1]) then SkipSpacesBack(s, lo, j - 1) else j
  }

  /** `String.prototype.trim`: the result has no white space at either end, and `s` is the
      result with only white space before and after it. */
  function Trim(s: string): (r: string)
    ensures IsTrimmed(r)
    ensures exists i, j :: 0 <= i <= j <= |s| && SpaceBetween(s, 0, i) && SpaceBetween(s, j, |s|)
                           && r == s[i..j]
  {
    var i := SkipSpaces(s, 0);
    var j := SkipSpacesBack(s, i, |s|);
    s[i..j]
  }

  /** The forward scan stops exactly at the first character that is not white space. */
  lemma {:induction false} SkipSpacesTo(s: string, i: nat, n: nat)
    requires i <= n <= |s| && SpaceBetween(s, i, n)
    requires n == |s| || !IsSpace(s[n])
    ensures SkipSpaces(s, i) == n
    decreases n - i
  {
    if i < n {
      SkipSpacesTo(s, i + 1, n);
    }
  }

  /** The backward scan stops exactly after the last character that is not white space. */
  lemma {:induction false} SkipSpacesBackTo(s: string, lo: nat, e: nat, j: nat)
    requires lo <= e <= j <= |s| && SpaceBetween(s, e, j)
    requires e == lo || !IsSpace(s[e - 1])
    ensures SkipSpacesBack(s, lo, j) == e
    decreases j - e
  {
    if e < j {
      SkipSpacesBackTo(s, lo, e, j - 1);
    }
  }

  /** Trimming removes exactly white-space padding: a trimmed text padded with white space
      on either side trims back to itself. */
  lemma {:induction false} TrimPadded(a: string, x: string, b: string)
    requires forall k :: 0 <= k < |a| ==> IsSpace(a[k])
    requires forall k :: 0 <= k < |b| ==> IsSpace(b[k])
    requires IsTrimmed(x)
    ensures Trim(a + x + b) == x
  {
    var s := a + x + b;
    var i, j := |a|, |a| + |x|;
    assert forall k :: 0 <= k < i ==> s[k] == a[k];
    assert forall k :: i <= k < j ==> s[k] == x[k - i];
    assert forall k :: j <= k < |s| ==> s[k] == b[k - j];
    if x == [] {
      SkipSpacesTo(s, 0, |s|);
      SkipSpacesBackTo(s, |s|, |s|, |s|);
    } else {
      SkipSpacesTo(s, 0, i);
      SkipSpacesBackTo(s, i, j, |s|);
    }
    assert s[i..j] == x;
  }

  /** `trim` is idempotent. */
  lemma {:induction false} TrimIdempotent(s: string)
    ensures Trim(Trim(s)) == Trim(s)
  {
    var r := Trim(s);
    TrimPadded([], r, []);
    assert [] + r + [] == r;
  }

  /** The number of occurrences of `c` in `s`. */
  function Count(s: string, c: char): (n: nat)
    ensures n <= |s|
    ensures n == 0 <==> c !in s
  {
    if s == [] then 0 else (if s[0] == c then 1 else 0) + Count(s[1..], c)
  }

  /** The UTF-16 code units a character takes: two for one outside the Basic Multilingual
      Plane (a surrogate pair), one for any other. */
  function CodeUnits(c: char): nat {
    if c as int > 0xFFFF then 2 else 1
  }

  /** A JavaScript string's `length`: the number of UTF-16 code units, not of characters. */
  function Utf16Length(s: string): (n: nat)
    ensures |s| <= n <= 2 * |s|
    ensures n == |s| <==> forall k :: 0 <= k < |s| ==> CodeUnits(s[k]) == 1
    ensures n == 2 * |s| <==> forall k :: 0 <= k < |s| ==> CodeUnits(s[k]) == 2
    ensures |s| == 1 ==> n == CodeUnits(s[0])
    decreases |s|
  {
    if s == [] then 0
    else
      var n := CodeUnits(s[0]) + Utf16Length(s[1..]);
      assert forall k :: 1 <= k < |s| ==> s[k] == s[1..][k - 1];
      n
  }

  /** The length of a concatenation is the sum of the lengths; with the length of one
      character this fixes the length of every string. */
  lemma {:induction false} Utf16LengthAppend(a: string, b: string)
    ensures Utf16Length(a + b) == Utf16Length(a) + Utf16Length(b)
    decreases |a|
  {
    if a != [] {
      Utf16LengthAppend(a[1..], b);
      assert (a + b)[1..] == a[1..] + b;
    } else {
      assert a + b == b;
    }
  }

  /** `arr.join(sep)`. */
  function Join(parts: seq<string>, sep: string): (r: string)
    ensures |parts| >= 1 ==> |parts[0]| <= |r| && r[..|parts[0]|] == parts[0]
  {
    if |parts| == 0 then ""
    else if |parts| == 1 then parts[0]
    else parts[0] + sep + Join(parts[1..], sep)
  }

  /** A join is as long as its pieces together, plus one separator between each two. */
  lemma {:induction false} JoinLength(parts: seq<string>, sep: string)
    requires |parts| >= 1
    ensures |Join(parts, sep)| == |Concat(parts)| + (|parts| - 1) * |sep|
  {
    if |parts| == 1 {
      assert Concat(parts[1..]) == "";
    } else {
      JoinLength(parts[1..], sep);
      assert (|parts| - 1) * |sep| == |sep| + (|parts| - 2) * |sep|;
    }
  }

  /** `s.split(sep)` for a one-character separator: the pieces between separators, never
      fewer than one (`SplitSpec` states what they are). */
  function Split(s: string, sep: char): (parts: seq<string>)
    ensures |parts| >= 1
  {
    if s == [] then [""]
    else
      var rest := Split(s[1..], sep);
      if s[0] == sep then [""] + rest
      else [[s[0]] + rest[0]] + rest[1..]
  }

  /** The pieces of `s.split(sep)` contain no separator and joined back with it give `s`,
      which determines them; there is one more piece than there are separators. */
  lemma {:induction false} SplitSpec(s: string, sep: char)
    ensures |Split(s, sep)| == Count(s, sep) + 1
    ensures Join(Split(s, sep), [sep]) == s
    ensures forall k :: 0 <= k < |Split(s, sep)| ==> sep !in Split(s, sep)[k]
  {
    SplitCount(s, sep);
    SplitJoinsBack(s, sep);
    SplitPiecesFree(s, sep);
  }

  lemma {:induction false} SplitCount(s: string, sep: char)
    ensures |Split(s, sep)| == Count(s, sep) + 1
  {
    if s != [] {
      SplitCount(s[1..], sep);
    }
  }

  lemma {:induction false} SplitJoinsBack(s: string, sep: char)
    ensures Join(Split(s, sep), [sep]) == s
  {
    if s != [] {
      SplitJoinsBack(s[1..], sep);
      var rest := Split(s[1..], sep);
      var parts := Split(s, sep);
      assert s == [s[0]] + s[1..];
      if s[0] == sep {
        assert parts[1..] == rest;
      } else if |rest| == 1 {
        assert Join(parts, [sep]) == [s[0]] + rest[0];
      } else {
        assert parts[1..] == rest[1..];
        assert Join(rest, [sep]) == rest[0] + [sep] + Join(rest[1..], [sep]);
        assert Join(parts, [sep]) == [s[0]] + rest[0] + [sep] + Join(rest[1..], [sep]);
      }
    }
  }

  lemma {:induction false} SplitPiecesFree(s: string, sep: char)
    ensures forall k :: 0 <= k < |Split(s, sep)| ==> sep !in Split(s, sep)[k]
  {
    if s != [] {
      SplitPiecesFree(s[1..], sep);
      var rest := Split(s[1..], sep);
      var parts := Split(s, sep);
      if s[0] == sep {
        assert forall k :: 1 <= k < |parts| ==> parts[k] == rest[k - 1];
      } else {
        assert parts[0] == [s[0]] + rest[0];
        assert forall k :: 1 <= k < |parts| ==> parts[k] == rest[k];
      }
    }
  }

  /** A text without the separator is one piece: itself. */
  lemma {:induction false} SplitWithoutSeparator(s: string, sep: char)
    requires sep !in s
    ensures Split(s, sep) == [s]
  {
    if s != [] {
      assert s[1..] == s[1..] && sep !in s[1..] by {
        forall k | 0 <= k < |s[1..]| ensures s[1..][k] != sep { assert s[1..][k] == s[k + 1]; }
      }
      SplitWithoutSeparator(s[1..], sep);
      assert s == [s[0]] + s[1..];
    }
  }

  /** Splitting text that starts with a separator-free prefix `a` glues `a` to the first
      piece and leaves the others alone. */
  lemma {:induction false} SplitAfterPrefix(a: string, b: string, sep: char)
    requires sep !in a
    ensures Split(a + b, sep) == [a + Split(b, sep)[0]] + Split(b, sep)[1..]
  {
    if a == [] {
      assert a + b == b;
      var parts := Split(b, sep);
      assert a + parts[0] == parts[0];
      assert parts == [parts[0]] + parts[1..];
    } else {
      var parts := Split(b, sep);
      var s := a + b;
      assert s[0] == a[0] && s[0] != sep;
      assert s[1..] == a[1..] + b;
      SplitAfterPrefix(a[1..], b, sep);
      var rest := Split(s[1..], sep);
      assert rest == [a[1..] + parts[0]] + parts[1..];
      assert Split(s, sep) == [[s[0]] + rest[0]] + rest[1..];
      assert a == [a[0]] + a[1..];
      assert [a[0]] + (a[1..] + parts[0]) == ([a[0]] + a[1..]) + parts[0];
    }
  }

  /** Splitting a join of separator-free pieces gives the pieces back. */
  lemma {:induction false} SplitJoin(parts: seq<string>, sep: char)
    requires |parts| >= 1
    requires forall k :: 0 <= k < |parts| ==> sep !in parts[k]
    ensures Split(Join(parts, [sep]), sep) == parts
  {
    if |parts| == 1 {
      SplitAfterPrefix(parts[0], "", sep);
      assert parts[0] + "" == parts[0];
    } else {
      SplitJoin(parts[1..], sep);
      var tail := Join(parts[1..], [sep]);
      assert Join(parts, [sep]) == parts[0] + ([sep] + tail);
      SplitAfterPrefix(parts[0], [sep] + tail, sep);
      var u := [sep] + tail;
      assert u[0] == sep && u[1..] == tail;
      var pieces := Split(u, sep);
      assert pieces == [""] + parts[1..];
      assert pieces[0] == "" && pieces[1..] == parts[1..];
      assert parts[0] + pieces[0] == parts[0];
      assert parts == [parts[0]] + parts[1..];
    }
  }

  predicate IsDigit(c: char) {
    '0' <= c <= '9'
  }

  predicate AllDigits(s: string) {
    forall k :: 0 <= k < |s| ==> IsDigit(s[k])
  }

  function DigitChar(d: nat): (c: char)
    requires d < 10
    ensures IsDigit(c)
  {
    (48 + d) as char
  }

  function DigitValue(c: char): (d: nat)
    requires IsDigit(c)
    ensures d < 10 && DigitChar(d) == c
  {
    c as int - 48
  }

  /** The base-10 value of a string of digits. */
  function DigitsValue(s: string): nat
    requires AllDigits(s)
  {
    if s == [] then 0 else 10 * DigitsValue(s[..|s| - 1]) + DigitValue(s[|s| - 1])
  }

  /** Scanning forward from `i`: the first index that is not a decimal digit, or `|s|`. */
  function DigitsEnd(s: string, i: nat): (j: nat)
    requires i <= |s|
    ensures i <= j <= |s| && AllDigits(s[i..j])
    ensures j == |s| || !IsDigit(s[j])
    decreases |s| - i
  {
    if i < |s| && IsDigit(s[i]) then
      var j := DigitsEnd(s, i + 1);
      assert s[i..j] == [s[i]] + s[i + 1..j];
      j
    else i
  }

  /** The digit scan stops exactly at the first character that is not a digit. */
  lemma {:induction false} DigitsEndTo(s: string, i: nat, n: nat)
    requires i <= n <= |s| && AllDigits(s[i..n])
    requires n == |s| || !IsDigit(s[n])
    ensures DigitsEnd(s, i) == n
    decreases n - i
  {
    if i < n {
      assert s[i] == s[i..n][0];
      assert s[i + 1..n] == s[i..n][1..];
      DigitsEndTo(s, i + 1, n);
    }
  }

  /** The decimal rendering of a natural number, as `${n}` produces it. */
  function NatToString(n: nat): (s: string)
    ensures s != [] && AllDigits(s)
    ensures DigitsValue(s) == n
    ensures n == 0 ==> s == "0"
    ensures n >= 1 ==> s[0] != '0'
  {
    if n < 10 then
      [DigitChar(n)]
    else
      var s := NatToString(n / 10) + [DigitChar(n % 10)];
      assert s[..|s| - 1] == NatToString(n / 10);
      s
  }

  /** The decimal rendering of an integer, with a leading `-` when negative. */
  function IntToString(i: int): (s: string)
    ensures s != [] && (s[0] == '-' <==> i < 0)
    ensures i >= 0 ==> AllDigits(s) && DigitsValue(s) == i
    ensures i < 0 ==> AllDigits(s[1..]) && DigitsValue(s[1..]) == -i
    ensures i >= 0 && |s| > 1 ==> s[0] != '0'
    ensures i < 0 ==> |s| >= 2 && s[1] != '0'
  {
    if i < 0 then
      var s := "-" + NatToString(-i);
      assert s[1..] == NatToString(-i);
      s
    else
      var s := NatToString(i);
      assert IsDigit(s[0]);
      s
  }

  /** `parseInt(s, 10)`, with `None` standing for `NaN`: skip leading white space, read an
      optional sign, then the longest run of decimal digits; no digits gives `NaN`. */
  function ParseInt(s: string): (r: Option<int>)
    ensures s != [] && AllDigits(s) ==> r == Some(DigitsValue(s))
    ensures SpaceBetween(s, 0, |s|) ==> r.None?
    ensures r.Some? ==> exists k :: 0 <= k < |s| && IsDigit(s[k])
  {
    ParseIntScans(s);
    var r := ReadNumber(s, SkipSpaces(s, 0));
    assert r.Some? ==> IsDigit(s[NumberStart(s, SkipSpaces(s, 0))]);
    r
  }

  /** Where the digits of a number read from `i` start: after the sign, if there is one. */
  function NumberStart(s: string, i: nat): nat
    requires i <= |s|
  {
    if i < |s| && (s[i] == '-' || s[i] == '+') then i + 1 else i
  }

  /** The number that starts at `i`: an optional sign and the longest run of digits after
      it; no digits gives `NaN`. */
  function ReadNumber(s: string, i: nat): (r: Option<int>)
    requires i <= |s|
    ensures r.Some? ==> NumberStart(s, i) < |s| && IsDigit(s[NumberStart(s, i)])
  {
    var negative := i < |s| && s[i] == '-';
    var start := NumberStart(s, i);
    var end := DigitsEnd(s, start);
    if end == start then None
    else
      assert IsDigit(s[start..end][0]);
      var magnitude: int := DigitsValue(s[start..end]);
      Some(if negative then -magnitude else magnitude)
  }

  /** Where `parseInt`'s scans stop on a text of digits alone and on a blank text. */
  lemma ParseIntScans(s: string)
    ensures s != [] && AllDigits(s) ==>
      SkipSpaces(s, 0) == 0 && DigitsEnd(s, 0) == |s| && s[0..|s|] == s
    ensures SpaceBetween(s, 0, |s|) ==> SkipSpaces(s, 0) == |s|
  {
    if s != [] && AllDigits(s) {
      assert IsDigit(s[0]);
      SkipSpacesTo(s, 0, 0);
      assert s[0..|s|] == s;
      DigitsEndTo(s, 0, |s|);
    }
    if SpaceBetween(s, 0, |s|) {
      SkipSpacesTo(s, 0, |s|);
    }
  }

  /** `parseInt` reads a run of digits and ignores whatever non-digit text follows it. */
  lemma {:induction false} ParseIntDigitsThenText(d: string, rest: string)
    requires d != [] && AllDigits(d)
    requires rest == [] || !IsDigit(rest[0])
    ensures ParseInt(d + rest) == Some(DigitsValue(d))
  {
    var s := d + rest;
    assert s[0] == d[0] && IsDigit(s[0]);
    SkipSpacesTo(s, 0, 0);
    assert s[0..|d|] == d;
    assert |d| < |s| ==> s[|d|] == rest[0];
    DigitsEndTo(s, 0, |d|);
  }

  /** `parseInt` skips leading white space: what follows it is read as if it stood alone. */
  lemma {:induction false} ParseIntSkipsLeadingSpace(w: string, t: string)
    requires SpaceBetween(w, 0, |w|)
    ensures ParseInt(w + t) == ParseInt(t)
  {
    var it := SkipSpaces(t, 0);
    SkipSpacesShift(w, t);
    ReadNumberShift(w, t, it);
    calc {
      ParseInt(w + t);
      ReadNumber(w + t, SkipSpaces(w + t, 0));
      ReadNumber(w + t, |w| + it);
      ReadNumber(t, it);
      ParseInt(t);
    }
  }

  /** A number reads the same after any prefix. */
  lemma {:induction false} ReadNumberShift(w: string, t: string, i: nat)
    requires i <= |t|
    ensures ReadNumber(w + t, |w| + i) == ReadNumber(t, i)
  {
    var s := w + t;
    assert i < |t| ==> s[|w| + i] == t[i];
    var startT := NumberStart(t, i);
    assert NumberStart(s, |w| + i) == |w| + startT;
    var endT := DigitsEnd(t, startT);
    DigitsEndShift(w, t, startT);
    assert s[|w| + startT..|w| + endT] == t[startT..endT];
  }

  /** Scanning white space over a prefix of white space goes on into what follows. */
  lemma {:induction false} SkipSpacesShift(w: string, t: string)
    requires SpaceBetween(w, 0, |w|)
    ensures SkipSpaces(w + t, 0) == |w| + SkipSpaces(t, 0)
  {
    var s := w + t;
    var it := SkipSpaces(t, 0);
    forall k | 0 <= k < |w| + it ensures IsSpace(s[k]) {
      if k >= |w| { assert s[k] == t[k - |w|]; }
    }
    assert |w| + it < |s| ==> s[|w| + it] == t[it];
    SkipSpacesTo(s, 0, |w| + it);
  }

  /** The digit scan reads the same run of digits after any prefix. */
  lemma {:induction false} DigitsEndShift(w: string, t: string, i: nat)
    requires i <= |t|
    ensures DigitsEnd(w + t, |w| + i) == |w| + DigitsEnd(t, i)
  {
    var s := w + t;
    var e := DigitsEnd(t, i);
    assert s[|w| + i..|w| + e] == t[i..e];
    assert |w| + e < |s| ==> s[|w| + e] == t[e];
    DigitsEndTo(s, |w| + i, |w| + e);
  }

  /** A sign right before the digits is read: `+` keeps the value, `-` negates it. */
  lemma {:induction false} ParseIntSigned(d: string, rest: string)
    requires d != [] && AllDigits(d)
    requires rest == [] || !IsDigit(rest[0])
    ensures ParseInt("+" + d + rest) == Some(DigitsValue(d))
    ensures ParseInt("-" + d + rest) == Some(-(DigitsValue(d) as int))
  {
    ParseIntSign('+', d, rest);
    ParseIntSign('-', d, rest);
  }

  lemma {:induction false} ParseIntSign(c: char, d: string, rest: string)
    requires c == '+' || c == '-'
    requires d != [] && AllDigits(d)
    requires rest == [] || !IsDigit(rest[0])
    ensures ParseInt([c] + d + rest) == Some(if c == '-' then -(DigitsValue(d) as int) else DigitsValue(d))
  {
    var s := [c] + d + rest;
    SkipSpacesTo(s, 0, 0);
    assert s[1..1 + |d|] == d;
    assert 1 + |d| < |s| ==> s[1 + |d|] == rest[0];
    DigitsEndTo(s, 1, 1 + |d|);
  }

  /** With the white space skipped, a text whose first character, after an optional sign,
      is not a digit (or that ends there) is `NaN`: "x5", "-" and "+-5" among them. */
  lemma {:induction false} ParseIntNoDigit(t: string)
    requires t == [] || !IsSpace(t[0])
    requires var u := if t != [] && (t[0] == '+' || t[0] == '-') then t[1..] else t;
      u == [] || !IsDigit(u[0])
    ensures ParseInt(t) == None
  {
    SkipSpacesTo(t, 0, 0);
    var start := if t != [] && (t[0] == '+' || t[0] == '-') then 1 else 0;
    assert start < |t| ==> t[start] == (if start == 1 then t[1..] else t)[0];
    DigitsEndTo(t, start, start);
  }

  /** `parseInt` inverts the decimal rendering of every integer. */
  lemma {:induction false} ParseIntRoundTrip(i: int)
    ensures ParseInt(IntToString(i)) == Some(i)
  {
    if i < 0 {
      var d := NatToString(-i);
      var s := "-" + d;
      SkipSpacesTo(s, 0, 0);
      assert s[1..|s|] == d;
      DigitsEndTo(s, 1, |s|);
    } else {
      ParseIntDigitsThenText(NatToString(i), []);
      assert NatToString(i) + [] == NatToString(i);
    }
  }

  /** The text a template literal builds from its pieces, in order. */
  function Concat(pieces: seq<string>): string
  {
    if pieces == [] then "" else pieces[0] + Concat(pieces[1..])
  }

  /** A template splits at any piece boundary into the text before and after it. */
  lemma {:induction false} ConcatSplit(pieces: seq<string>, k: nat)
    requires k <= |pieces|
    ensures Concat(pieces) == Concat(pieces[..k]) + Concat(pieces[k..])
  {
    if k > 0 {
      ConcatSplit(pieces[1..], k - 1);
      assert pieces[1..][..k - 1] == pieces[1..k];
      assert pieces[1..][k - 1..] == pieces[k..];
      assert pieces[..k] == [pieces[0]] + pieces[1..k];
      assert pieces[..k][1..] == pieces[1..k];
    } else {
      assert pieces[..0] == [] && pieces[0..] == pieces;
    }
  }

  /** Every piece of a template occurs, verbatim, in the text built from it, after all the
      earlier pieces. */
  lemma {:induction false} PieceOccurs(pieces: seq<string>, k: nat)
    requires k < |pieces|
    ensures OccursAt(Concat(pieces), pieces[k], |Concat(pieces[..k])|)
  {
    ConcatSplit(pieces, k);
    var after := pieces[k..];
    assert after == [pieces[k]] + after[1..];
    assert Concat(after) == pieces[k] + Concat(after[1..]);
    var text := Concat(pieces);
    var i := |Concat(pieces[..k])|;
    assert text == Concat(pieces[..k]) + (pieces[k] + Concat(after[1..]));
    assert text[i..i + |pieces[k]|] == pieces[k];
  }

  /** A later piece starts no earlier than the end of an earlier one. */
  lemma {:induction false} LaterPieceStartsAfter(pieces: seq<string>, i: nat, j: nat)
    requires i < j <= |pieces|
    ensures |Concat(pieces[..i])| + |pieces[i]| <= |Concat(pieces[..j])|
  {
    var front := pieces[..j];
    ConcatSplit(front, i);
    assert front[..i] == pieces[..i];
    var middle := front[i..];
    assert middle == [pieces[i]] + middle[1..];
    assert Concat(middle) == pieces[i] + Concat(middle[1..]);
  }

  /** Two occurrences of the same text at different pieces, the first ending before the
      second starts. */
  predicate OccursTwice(s: string, t: string) {
    exists i, j :: 0 <= i <= j <= |s| && OccursAt(s, t, i) && OccursAt(s, t, j) && i + |t| <= j
  }

  /** A part of a template literal: a fixed fragment of text (its wording given by a
      separate function), or the substituted value at `index`. */
  datatype Part<F> = Lit(fragment: F) | Hole(index: nat)

  /** The pieces of a template once each fragment is worded and each hole is replaced by
      its value (an unmatched hole by nothing). */
  function Pieces<F>(template: seq<Part<F>>, wording: F -> string, values: seq<string>): seq<string>
  {
    seq(|template|, k requires 0 <= k < |template| =>
      match template[k]
      case Lit(fragment) => wording(fragment)
      case Hole(h) => if h < |values| then values[h] else "")
  }

  /** The text a template literal evaluates to. */
  function Fill<F>(template: seq<Part<F>>, wording: F -> string, values: seq<string>): string
  {
    Concat(Pieces(template, wording, values))
  }

  /** A value substituted into a template occurs, verbatim, in the text. */
  lemma {:induction false} FillMentions<F>(template: seq<Part<F>>, wording: F -> string,
                                          values: seq<string>, k: nat)
    requires k < |template| && template[k].Hole? && template[k].index < |values|
    ensures Contains(Fill(template, wording, values), values[template[k].index])
  {
    var pieces := Pieces(template, wording, values);
    PieceOccurs(pieces, k);
    assert 0 <= |Concat(pieces[..k])| <= |Concat(pieces)|;
  }

  /** A value substituted at two holes occurs twice, without overlap. */
  lemma {:induction false} FillMentionsTwice<F>(template: seq<Part<F>>, wording: F -> string,
                                               values: seq<string>, j: nat, k: nat)
    requires j < k < |template|
    requires template[j].Hole? && template[k] == template[j] && template[j].index < |values|
    ensures OccursTwice(Fill(template, wording, values), values[template[j].index])
  {
    var pieces := Pieces(template, wording, values);
    PieceOccurs(pieces, j);
    PieceOccurs(pieces, k);
    LaterPieceStartsAfter(pieces, j, k);
    var text := Concat(pieces);
    var first, second := |Concat(pieces[..j])|, |Concat(pieces[..k])|;
    assert 0 <= first <= second <= |text|;
  }

  /** `${v}` for a nullable string: `null` renders as "null". */
  function Show(v: Option<string>): string
  {
    if v.None? then "null" else v.value
  }

  /** `${v}` for a nullable integer. */
  function ShowInt(v: Option<int>): string
  {
    if v.None? then "null" else IntToString(v.value)
  }
}
