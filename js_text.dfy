/** The ECMAScript string operations that the modelled code relies on, over `seq<char>`:
    `trim`, `split` on one character, `join`, `toLowerCase` (ASCII letters only),
    `includes`, `startsWith` and the decimal rendering of a status code in a template
    literal. */
module JsText {

  /** White space and line terminators as `String.prototype.trim` strips them
      (the WhiteSpace and LineTerminator productions of ECMA-262). */
  predicate IsSpace(c: char) {
    || c == '\t' || c == '\n' || c == '\U{B}' || c == '\U{C}' || c == '\r' || c == ' '
    || c == '\U{A0}' || c == '\U{1680}' || ('\U{2000}' <= c <= '\U{200A}')
    || c == '\U{2028}' || c == '\U{2029}' || c == '\U{202F}' || c == '\U{205F}'
    || c == '\U{3000}' || c == '\U{FEFF}'
  }

  predicate AllSpace(s: string) {
    forall k :: 0 <= k < |s| ==> IsSpace(s[k])
  }

  /** No white space at either end (the shape of every result of `trim`). */
  predicate Trimmed(s: string) {
    s == [] || (!IsSpace(s[0]) && !IsSpace(s[|s| - 1]))
  }

  /** `s.trimStart()`: the suffix left after dropping the leading white space. */
  function TrimStart(s: string): (r: string)
    ensures |r| <= |s| && r == s[|s| - |r|..]
    ensures AllSpace(s[..|s| - |r|])
    ensures r == [] || !IsSpace(r[0])
  {
    if |s| > 0 && IsSpace(s[0]) then
      var t := s[1..];
      var r := TrimStart(t);
      assert t[|t| - |r|..] == s[|s| - |r|..];
      assert s[..|s| - |r|] == [s[0]] + t[..|t| - |r|];
      r
    else s
  }

  /** `s.trimEnd()`: the prefix left after dropping the trailing white space. */
  function TrimEnd(s: string): (r: string)
    ensures |r| <= |s| && r == s[..|r|]
    ensures AllSpace(s[|r|..])
    ensures r == [] || !IsSpace(r[|r| - 1])
  {
    if |s| > 0 && IsSpace(s[|s| - 1]) then
      var r := TrimEnd(s[..|s| - 1]);
      assert s[|r|..] == s[..|s| - 1][|r|..] + [s[|s| - 1]];
      r
    else s
  }

  /** `s.trim()`. */
  function Trim(s: string): (r: string)
    ensures |r| <= |s|
    ensures Trimmed(r)
    ensures r == [] <==> AllSpace(s)
  {
    var t := TrimStart(s);
    assert t == [] ==> AllSpace(s) by {
      if t == [] { assert s[..|s| - |t|] == s; }
    }
    TrimEnd(t)
  }

  lemma {:induction false} TrimStartOfSpacePrefix(a: string, t: string)
    requires AllSpace(a)
    requires t == [] || !IsSpace(t[0])
    ensures TrimStart(a + t) == t
  {
    if a != [] {
      assert (a + t)[1..] == a[1..] + t;
      TrimStartOfSpacePrefix(a[1..], t);
    }
  }

  lemma {:induction false} TrimEndOfSpaceSuffix(t: string, b: string)
    requires AllSpace(b)
    requires t == [] || !IsSpace(t[|t| - 1])
    ensures TrimEnd(t + b) == t
  {
    if b != [] {
      var b' := b[..|b| - 1];
      assert (t + b)[..|t + b| - 1] == t + b';
      TrimEndOfSpaceSuffix(t, b');
    }
  }

  /** `trim` removes exactly the white-space frame around a trimmed core. */
  lemma TrimOfFramed(a: string, m: string, b: string)
    requires AllSpace(a) && AllSpace(b) && Trimmed(m)
    ensures Trim(a + m + b) == m
  {
    if m == [] {
      assert a + m + b == a + b;
      assert AllSpace(a + b);
    } else {
      assert a + m + b == a + (m + b);
      TrimStartOfSpacePrefix(a, m + b);
      TrimEndOfSpaceSuffix(m, b);
    }
  }

  /** Trimming twice is trimming once. */
  lemma TrimIdempotent(s: string)
    ensures Trim(Trim(s)) == Trim(s)
  {
    var r := Trim(s);
    assert TrimStart(r) == r;
    assert TrimEnd(r) == r;
  }

  /** `s.split(sep)` for a one-character separator: the runs between separators, so
      there is always at least one part and no part holds the separator. */
  function Split(s: string, sep: char): (parts: seq<string>)
    ensures |parts| >= 1
    ensures forall k :: 0 <= k < |parts| ==> sep !in parts[k]
  {
    if s == [] then [[]]
    else
      var rest := Split(s[1..], sep);
      if s[0] == sep then [[]] + rest else [[s[0]] + rest[0]] + rest[1..]
  }

  /** `parts.join(sep)`. */
  function JoinWith(parts: seq<string>, sep: string): string {
    if |parts| == 0 then []
    else if |parts| == 1 then parts[0]
    else parts[0] + sep + JoinWith(parts[1..], sep)
  }

  lemma JoinWithCons(p: string, rest: seq<string>, sep: string)
    requires |rest| >= 1
    ensures JoinWith([p] + rest, sep) == p + sep + JoinWith(rest, sep)
  {
    assert ([p] + rest)[1..] == rest;
  }

  /** Where the part at index `i` starts in `JoinWith(parts, sep)`: the parts before
      it, each followed by the separator. */
  function PartStart(parts: seq<string>, sep: string, i: nat): nat
    requires i <= |parts|
  {
    if i == 0 then 0 else PartStart(parts, sep, i - 1) + |parts[i - 1]| + |sep|
  }

  lemma {:induction false} PartStartOfTail(parts: seq<string>, sep: string, i: nat)
    requires 1 <= i <= |parts|
    ensures PartStart(parts, sep, i) == |parts[0]| + |sep| + PartStart(parts[1..], sep, i - 1)
  {
    if i > 1 {
      PartStartOfTail(parts, sep, i - 1);
      assert parts[1..][i - 2] == parts[i - 1];
    }
  }

  /** In a join, every part sits at its start, the separator follows every part but
      the last, and the last part ends the text. */
  lemma {:induction false} JoinWithPlacesParts(parts: seq<string>, sep: string, i: nat)
    requires i < |parts|
    ensures var j, o := JoinWith(parts, sep), PartStart(parts, sep, i);
      && o + |parts[i]| <= |j| && j[o..o + |parts[i]|] == parts[i]
      && (i + 1 < |parts| ==> o + |parts[i]| + |sep| <= |j| && j[o + |parts[i]|..o + |parts[i]| + |sep|] == sep)
      && (i + 1 == |parts| ==> o + |parts[i]| == |j|)
  {
    if i == 0 {
      JoinWithPlacesFirst(parts, sep);
    } else {
      var tail := JoinWith(parts[1..], sep);
      var head := parts[0] + sep;
      assert JoinWith(parts, sep) == head + tail;
      JoinWithPlacesParts(parts[1..], sep, i - 1);
      PartStartOfTail(parts, sep, i);
      assert parts[1..][i - 1] == parts[i];
      var o, w := PartStart(parts[1..], sep, i - 1), |parts[i]|;
      SliceAfterPrefix(head, tail, o, o + w);
      if i + 1 < |parts| {
        SliceAfterPrefix(head, tail, o + w, o + w + |sep|);
      }
    }
  }

  lemma JoinWithPlacesFirst(parts: seq<string>, sep: string)
    requires |parts| >= 1
    ensures var j := JoinWith(parts, sep);
      && |parts[0]| <= |j| && j[..|parts[0]|] == parts[0]
      && (1 < |parts| ==> |parts[0]| + |sep| <= |j| && j[|parts[0]|..|parts[0]| + |sep|] == sep)
      && (1 == |parts| ==> |parts[0]| == |j|)
  {
    if |parts| > 1 {
      var head, tail := parts[0] + sep, JoinWith(parts[1..], sep);
      assert JoinWith(parts, sep) == head + tail;
      assert (head + tail)[..|parts[0]|] == parts[0];
      assert (head + tail)[|parts[0]|..|head|] == sep;
    }
  }

  lemma SliceAfterPrefix(pre: string, t: string, a: nat, b: nat)
    requires a <= b <= |t|
    ensures (pre + t)[|pre| + a..|pre| + b] == t[a..b]
  {
  }

  /** The same placement after a fixed prefix: the part and where the text ends. */
  lemma PrefixedJoinPlacesPart(pre: string, parts: seq<string>, sep: string, i: nat)
    requires i < |parts|
    ensures var m, o := pre + JoinWith(parts, sep), |pre| + PartStart(parts, sep, i);
      && o + |parts[i]| <= |m| && m[o..o + |parts[i]|] == parts[i]
      && (i + 1 == |parts| ==> o + |parts[i]| == |m|)
  {
    var j, p := JoinWith(parts, sep), PartStart(parts, sep, i);
    JoinWithPlacesParts(parts, sep, i);
    SliceAfterPrefix(pre, j, p, p + |parts[i]|);
  }

  /** The same placement after a fixed prefix: the separator after a part. */
  lemma PrefixedJoinPlacesSeparator(pre: string, parts: seq<string>, sep: string, i: nat)
    requires i + 1 < |parts|
    ensures var m, e := pre + JoinWith(parts, sep), |pre| + PartStart(parts, sep, i) + |parts[i]|;
      e + |sep| <= |m| && m[e..e + |sep|] == sep
  {
    var j, e := JoinWith(parts, sep), PartStart(parts, sep, i) + |parts[i]|;
    JoinWithPlacesParts(parts, sep, i);
    SliceAfterPrefix(pre, j, e, e + |sep|);
  }

  /** Joining the parts of a split with the separator gives back the original text. */
  lemma {:induction false} SplitThenJoin(s: string, sep: char)
    ensures JoinWith(Split(s, sep), [sep]) == s
  {
    if s != [] {
      var rest := Split(s[1..], sep);
      SplitThenJoin(s[1..], sep);
      if s[0] == sep {
        JoinWithCons([], rest, [sep]);
      } else if |rest| == 1 {
        assert Split(s, sep) == [[s[0]] + rest[0]];
      } else {
        var parts := Split(s, sep);
        assert parts == [[s[0]] + rest[0]] + rest[1..];
        JoinWithCons([s[0]] + rest[0], rest[1..], [sep]);
        JoinWithCons(rest[0], rest[1..], [sep]);
        assert rest == [rest[0]] + rest[1..];
      }
    }
  }

  lemma {:induction false} SplitOfPlainPrefix(p: string, t: string, sep: char)
    requires sep !in p
    ensures Split(p + t, sep) == [p + Split(t, sep)[0]] + Split(t, sep)[1..]
  {
    if p != [] {
      var parts := Split(t, sep);
      assert (p + t)[0] == p[0] && (p + t)[1..] == p[1..] + t;
      SplitOfPlainPrefix(p[1..], t, sep);
      var rest := Split(p[1..] + t, sep);
      assert rest[0] == p[1..] + parts[0] && rest[1..] == parts[1..];
      assert [p[0]] + (p[1..] + parts[0]) == p + parts[0];
    } else {
      var parts := Split(t, sep);
      assert p + t == t;
      assert p + parts[0] == parts[0];
      assert parts == [parts[0]] + parts[1..];
    }
  }

  /** Splitting the join of separator-free parts gives back the parts. */
  lemma {:induction false} JoinThenSplit(parts: seq<string>, sep: char)
    requires |parts| >= 1
    requires forall k :: 0 <= k < |parts| ==> sep !in parts[k]
    ensures Split(JoinWith(parts, [sep]), sep) == parts
  {
    if |parts| == 1 {
      SplitOfPlainPrefix(parts[0], [], sep);
      assert parts[0] + [] == parts[0];
    } else {
      var tail := JoinWith(parts[1..], [sep]);
      JoinThenSplit(parts[1..], sep);
      assert JoinWith(parts, [sep]) == parts[0] + ([sep] + tail);
      SplitOfPlainPrefix(parts[0], [sep] + tail, sep);
      assert ([sep] + tail)[1..] == tail;
      assert Split([sep] + tail, sep) == [[]] + parts[1..];
      assert parts[0] + [] == parts[0];
    }
  }

  /** `toLowerCase` on one character; only the ASCII letters are mapped. */
  function LowerChar(c: char): char {
    if 'A' <= c <= 'Z' then (c as int + 32) as char else c
  }

  /** `s.toLowerCase()` (ASCII case mapping). */
  function ToLower(s: string): string {
    seq(|s|, k requires 0 <= k < |s| => LowerChar(s[k]))
  }

  /** `s.includes(q)`. */
  predicate Includes(s: string, q: string) {
    exists i | 0 <= i <= |s| - |q| :: OccursAt(s, q, i)
  }

  predicate OccursAt(s: string, q: string, i: nat) {
    i + |q| <= |s| && s[i..i + |q|] == q
  }

  /** `s.startsWith(p)`. */
  predicate StartsWith(s: string, p: string) {
    |p| <= |s| && s[..|p|] == p
  }

  function DigitChar(d: nat): char
    requires d < 10
  {
    ('0' as int + d) as char
  }

  predicate IsDigit(c: char) {
    '0' <= c <= '9'
  }

  /** The numeric value of a string of decimal digits. */
  function DigitsValue(s: string): nat
    requires forall k :: 0 <= k < |s| ==> IsDigit(s[k])
  {
    if s == [] then 0
    else
      var last := s[|s| - 1];
      assert IsDigit(last);
      DigitsValue(s[..|s| - 1]) * 10 + (last as int - '0' as int)
  }

  /** A non-negative number in a template literal: its shortest decimal form. */
  function Decimal(n: nat): (r: string)
    ensures r != []
    ensures forall k :: 0 <= k < |r| ==> IsDigit(r[k])
    ensures r[0] == '0' ==> n == 0
  {
    if n < 10 then [DigitChar(n)] else Decimal(n / 10) + [DigitChar(n % 10)]
  }

  /** Reading the decimal form back gives the number. */
  lemma {:induction false} DecimalValue(n: nat)
    ensures DigitsValue(Decimal(n)) == n
  {
    if n >= 10 {
      DecimalValue(n / 10);
      var r := Decimal(n);
      assert r[..|r| - 1] == Decimal(n / 10);
    }
  }
}
