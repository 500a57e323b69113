/**
 * The JavaScript string operations the prompt builders rely on, over `seq<char>`:
 * the `\s` character class, `String.prototype.trim`, `split(/\s/)`,
 * `Array.prototype.join`, and ASCII case mapping.
 */
module JsText {

  /** ECMAScript WhiteSpace and LineTerminator code points: what `\s` matches and `trim` strips. */
  predicate IsWhitespace(c: char) {
    || c == '\t' || c == '\n' || c == '\U{000B}' || c == '\U{000C}' || c == '\r' || c == ' '
    || c == '\U{00A0}' || c == '\U{1680}' || ('\U{2000}' <= c <= '\U{200A}')
    || c == '\U{2028}' || c == '\U{2029}' || c == '\U{202F}' || c == '\U{205F}'
    || c == '\U{3000}' || c == '\U{FEFF}'
  }

  predicate AllWhitespace(s: string) {
    forall i :: 0 <= i < |s| ==> IsWhitespace(s[i])
  }

  predicate NoWhitespace(s: string) {
    forall i :: 0 <= i < |s| ==> !IsWhitespace(s[i])
  }

  /** Neither end of `s` is a whitespace character: `trim` leaves `s` alone. */
  predicate Trimmed(s: string) {
    s == [] || (!IsWhitespace(s[0]) && !IsWhitespace(s[|s| - 1]))
  }

  // ---------------------------------------------------------------- trim

  /** Drops the leading whitespace: the result is the suffix of `s` after it. */
  function TrimStart(s: string): (r: string)
    ensures |r| <= |s| && r == s[|s| - |r|..]
    ensures AllWhitespace(s[..|s| - |r|])
    ensures r == [] || !IsWhitespace(r[0])
  {
    if s != [] && IsWhitespace(s[0]) then TrimStart(s[1..]) else s
  }

  /** Drops the trailing whitespace: the result is the prefix of `s` before it. */
  function TrimEnd(s: string): (r: string)
    ensures |r| <= |s| && r == s[..|r|]
    ensures AllWhitespace(s[|r|..])
    ensures r == [] || !IsWhitespace(r[|r| - 1])
  {
    if s != [] && IsWhitespace(s[|s| - 1]) then TrimEnd(s[..|s| - 1]) else s
  }

  /** `s.trim()`. */
  function Trim(s: string): (r: string)
    ensures Trimmed(r)
    ensures |r| <= |s|
  {
    var t := TrimStart(s);
    var r := TrimEnd(t);
    assert r != [] ==> r[0] == t[0];
    r
  }

  lemma {:induction false} TrimStartSkipsWhitespace(a: string, s: string)
    requires AllWhitespace(a)
    ensures TrimStart(a + s) == TrimStart(s)
  {
    if a != [] {
      assert (a + s)[0] == a[0];
      assert (a + s)[1..] == a[1..] + s;
      TrimStartSkipsWhitespace(a[1..], s);
    } else {
      assert a + s == s;
    }
  }

  lemma {:induction false} TrimEndSkipsWhitespace(s: string, b: string)
    requires AllWhitespace(b)
    ensures TrimEnd(s + b) == TrimEnd(s)
  {
    if b != [] {
      var b' := b[..|b| - 1];
      assert (s + b)[|s + b| - 1] == b[|b| - 1];
      assert (s + b)[..|s + b| - 1] == s + b';
      TrimEndSkipsWhitespace(s, b');
    } else {
      assert s + b == s;
    }
  }

  /** A string that starts with a non-whitespace character has nothing to drop at the front. */
  lemma TrimStartOfSolid(s: string)
    requires s != [] && !IsWhitespace(s[0])
    ensures TrimStart(s) == s
  {
  }

  /** A string that ends with a non-whitespace character has nothing to drop at the back. */
  lemma TrimEndOfSolid(s: string)
    requires s != [] && !IsWhitespace(s[|s| - 1])
    ensures TrimEnd(s) == s
  {
  }

  /**
   * `trim` is characterised by what it keeps: padding a trimmed string with whitespace
   * on either side and trimming gives the string back.
   */
  lemma TrimOfPadded(a: string, r: string, b: string)
    requires AllWhitespace(a) && AllWhitespace(b) && Trimmed(r)
    ensures Trim(a + r + b) == r
  {
    var s := a + r + b;
    assert s == a + (r + b);
    TrimStartSkipsWhitespace(a, r + b);
    if r == [] {
      assert r + b == b + [];
      TrimStartSkipsWhitespace(b, []);
      assert TrimStart(s) == [];
    } else {
      assert (r + b)[0] == r[0];
      TrimStartOfSolid(r + b);
      TrimEndSkipsWhitespace(r, b);
      TrimEndOfSolid(r);
      assert TrimEnd(TrimStart(s)) == r;
    }
  }

  /** Trimming at the end keeps everything up to a non-whitespace character. */
  lemma TrimEndKeepsPrefix(s: string, k: nat)
    requires k < |s| && !IsWhitespace(s[k])
    ensures k < |TrimEnd(s)| && TrimEnd(s)[..k + 1] == s[..k + 1]
  {
  }

  /** How many whitespace characters `trim` removes at the front of `s`. */
  function LeadLength(s: string): nat {
    |s| - |TrimStart(s)|
  }

  /** Any two cut points split a string into three consecutive slices. */
  lemma ThreeSlices(s: string, i: nat, j: nat)
    requires i <= j <= |s|
    ensures s == s[..i] + s[i..j] + s[j..]
  {
  }

  /** Every string is its trimmed form with whitespace on either side. */
  lemma TrimSplits(s: string)
    ensures LeadLength(s) + |Trim(s)| <= |s|
    ensures s == s[..LeadLength(s)] + Trim(s) + s[LeadLength(s) + |Trim(s)|..]
    ensures AllWhitespace(s[..LeadLength(s)]) && AllWhitespace(s[LeadLength(s) + |Trim(s)|..])
  {
    var t := TrimStart(s);
    var r := TrimEnd(t);
    var lead := |s| - |t|;
    assert r == Trim(s);
    assert t == s[lead..];
    assert r == s[lead..lead + |r|] by {
      assert r == t[..|r|];
    }
    assert s[lead + |r|..] == t[|r|..];
    ThreeSlices(s, lead, lead + |r|);
  }

  lemma TrimIdempotent(s: string)
    ensures Trim(Trim(s)) == Trim(s)
  {
    var r := Trim(s);
    assert [] + r + [] == r;
    TrimOfPadded([], r, []);
  }

  /** A string with no whitespace at either end is left alone by `trim`. */
  lemma TrimOfTrimmed(s: string)
    requires Trimmed(s)
    ensures Trim(s) == s
  {
    assert [] + s + [] == s;
    TrimOfPadded([], s, []);
  }

  /** A slice of the second half of a concatenation is a slice of that half. */
  lemma SliceOfSecond(x: string, y: string, a: nat, b: nat)
    requires a <= b <= |y|
    ensures (x + y)[|x| + a..|x| + b] == y[a..b]
  {
  }

  /** A string that begins with `p` has `p`'s first character first. */
  lemma PrefixFirstChar(s: string, p: string)
    requires 1 <= |p| <= |s| && s[..|p|] == p
    ensures s[0] == p[0]
  {
    assert s[..|p|][0] == s[0];
  }

  /** Where each of five concatenated strings sits in the result. */
  lemma Concat5Layout(a: string, b: string, c: string, d: string, e: string)
    ensures var s := a + b + c + d + e;
      var i, j, k, l := |a|, |a| + |b|, |a| + |b| + |c|, |a| + |b| + |c| + |d|;
      && |s| == l + |e|
      && s[..i] == a && s[i..j] == b && s[j..k] == c && s[k..l] == d && s[l..] == e
  {
    var s := a + b + c + d + e;
    assert s == a + (b + (c + (d + e)));
    assert s[|a|..] == b + (c + (d + e));
    assert s[|a| + |b|..] == c + (d + e);
    assert s[|a| + |b| + |c|..] == d + e;
  }

  // ---------------------------------------------------------------- split(/\s/)

  function CountWhitespace(s: string): nat {
    if s == [] then 0 else (if IsWhitespace(s[0]) then 1 else 0) + CountWhitespace(s[1..])
  }

  /**
   * `s.split(/\s/)`: the pieces between single whitespace characters. Every
   * whitespace character ends one piece, so there is one piece more than there
   * are whitespace characters; `"".split(/\s/)` is `[""]`.
   */
  function SplitOnWhitespace(s: string): (pieces: seq<string>)
    ensures |pieces| == CountWhitespace(s) + 1
    ensures forall k :: 0 <= k < |pieces| ==> NoWhitespace(pieces[k])
  {
    if s == [] then [""]
    else
      var rest := SplitOnWhitespace(s[1..]);
      if IsWhitespace(s[0]) then [""] + rest
      else [[s[0]] + rest[0]] + rest[1..]
  }

  lemma {:induction false} CountWhitespaceZero(s: string)
    ensures CountWhitespace(s) == 0 <==> NoWhitespace(s)
  {
    if s != [] {
      CountWhitespaceZero(s[1..]);
      assert forall i :: 1 <= i < |s| ==> s[i] == s[1..][i - 1];
    }
  }

  /** `s.split(/\s/).length === 1` holds exactly when `s` contains no whitespace character. */
  lemma SingleToken(s: string)
    ensures |SplitOnWhitespace(s)| == 1 <==> NoWhitespace(s)
  {
    CountWhitespaceZero(s);
  }

  // ---------------------------------------------------------------- case mapping

  function LowerChar(c: char): char {
    if 'A' <= c <= 'Z' then (c as int + 32) as char else c
  }

  function UpperChar(c: char): char {
    if 'a' <= c <= 'z' then (c as int - 32) as char else c
  }

  /** `s.toLowerCase()` on the ASCII letters. */
  function ToLower(s: string): string {
    seq(|s|, i requires 0 <= i < |s| => LowerChar(s[i]))
  }

  /** `s.toUpperCase()` on the ASCII letters. */
  function ToUpper(s: string): string {
    seq(|s|, i requires 0 <= i < |s| => UpperChar(s[i]))
  }

  // ---------------------------------------------------------------- join

  /** `parts.join(sep)`. */
  function Join(parts: seq<string>, sep: string): string {
    if |parts| == 0 then ""
    else if |parts| == 1 then parts[0]
    else parts[0] + sep + Join(parts[1..], sep)
  }

  function TotalLength(parts: seq<string>): nat {
    if parts == [] then 0 else |parts[0]| + TotalLength(parts[1..])
  }

  /** Where `parts[i]` begins in `Join(parts, sep)`: every earlier part and its separator come first. */
  function Offset(parts: seq<string>, sepLength: nat, i: nat): nat
    requires i <= |parts|
  {
    if i == 0 then 0 else |parts[0]| + sepLength + Offset(parts[1..], sepLength, i - 1)
  }

  lemma {:induction false} JoinLength(parts: seq<string>, sep: string)
    requires |parts| >= 1
    ensures |Join(parts, sep)| == TotalLength(parts) + |sep| * (|parts| - 1)
  {
    if |parts| == 1 {
      assert parts[1..] == [];
    } else {
      JoinLength(parts[1..], sep);
    }
  }

  /** The next part begins after this one and one separator. */
  lemma {:induction false} OffsetStep(parts: seq<string>, sepLength: nat, i: nat)
    requires i < |parts|
    ensures Offset(parts, sepLength, i + 1) == Offset(parts, sepLength, i) + |parts[i]| + sepLength
  {
    if i > 0 {
      assert parts[1..][i - 1] == parts[i];
      OffsetStep(parts[1..], sepLength, i - 1);
    }
  }

  /** A join of several parts is the first part, a separator, and the join of the rest. */
  lemma JoinUnfold(parts: seq<string>, sep: string)
    requires |parts| > 1
    ensures Join(parts, sep) == parts[0] + (sep + Join(parts[1..], sep))
  {
  }

  /** A string begins with its first piece. */
  lemma PrefixOfConcat(x: string, y: string)
    ensures (x + y)[..|x|] == x
  {
  }

  /** Each part stands verbatim at its offset in the join. */
  lemma {:induction false} JoinAt(parts: seq<string>, sep: string, i: nat)
    requires i < |parts|
    ensures Offset(parts, |sep|, i) + |parts[i]| <= |Join(parts, sep)|
    ensures Join(parts, sep)[Offset(parts, |sep|, i)..Offset(parts, |sep|, i) + |parts[i]|] == parts[i]
  {
    if |parts| > 1 {
      var rest := Join(parts[1..], sep);
      JoinUnfold(parts, sep);
      if i == 0 {
        PrefixOfConcat(parts[0], sep + rest);
      } else {
        JoinAt(parts[1..], sep, i - 1);
        assert parts[1..][i - 1] == parts[i];
        var o := Offset(parts[1..], |sep|, i - 1);
        assert parts[0] + (sep + rest) == (parts[0] + sep) + rest;
        SliceOfSecond(parts[0] + sep, rest, o, o + |parts[i]|);
      }
    }
  }

  /** Every part but the last is followed by one copy of the separator. */
  lemma {:induction false} JoinSeparatorAt(parts: seq<string>, sep: string, i: nat)
    requires i + 1 < |parts|
    ensures Offset(parts, |sep|, i + 1) == Offset(parts, |sep|, i) + |parts[i]| + |sep|
    ensures Offset(parts, |sep|, i + 1) <= |Join(parts, sep)|
    ensures Join(parts, sep)[Offset(parts, |sep|, i) + |parts[i]|..Offset(parts, |sep|, i + 1)] == sep
  {
    var head := parts[0] + sep;
    var rest := Join(parts[1..], sep);
    assert Join(parts, sep) == head + rest;
    OffsetStep(parts, |sep|, i);
    if i == 0 {
      assert Offset(parts[1..], |sep|, 0) == 0;
      assert (head + rest)[|parts[0]|..|head|] == sep;
    } else {
      JoinSeparatorAt(parts[1..], sep, i - 1);
      assert parts[1..][i - 1] == parts[i];
      var o := Offset(parts[1..], |sep|, i - 1) + |parts[i]|;
      var o' := Offset(parts[1..], |sep|, i);
      SliceOfSecond(head, rest, o, o');
    }
  }

  /** Offsets grow strictly along the parts when the separator is not empty. */
  lemma {:induction false} OffsetIncreasing(parts: seq<string>, sepLength: nat, i: nat, j: nat)
    requires i < j <= |parts| && sepLength > 0
    ensures Offset(parts, sepLength, i) + |parts[i]| < Offset(parts, sepLength, j)
  {
    if i > 0 {
      assert parts[1..][i - 1] == parts[i];
      OffsetIncreasing(parts[1..], sepLength, i - 1, j - 1);
    }
  }

  // ---------------------------------------------------------------- counting a character

  function Count(c: char, s: string): nat {
    if s == [] then 0 else (if s[0] == c then 1 else 0) + Count(c, s[1..])
  }

  lemma {:induction false} CountAppend(c: char, a: string, b: string)
    ensures Count(c, a + b) == Count(c, a) + Count(c, b)
  {
    if a != [] {
      assert (a + b)[1..] == a[1..] + b;
      CountAppend(c, a[1..], b);
    } else {
      assert a + b == b;
    }
  }

  function CountInAll(c: char, parts: seq<string>): nat {
    if parts == [] then 0 else Count(c, parts[0]) + CountInAll(c, parts[1..])
  }

  /** A character occurs in a join as often as in the parts, plus once per separator copy. */
  lemma {:induction false} JoinCount(c: char, parts: seq<string>, sep: string)
    requires |parts| >= 1
    ensures Count(c, Join(parts, sep)) == CountInAll(c, parts) + Count(c, sep) * (|parts| - 1)
  {
    if |parts| == 1 {
      assert parts[1..] == [];
    } else {
      JoinCount(c, parts[1..], sep);
      CountAppend(c, parts[0] + sep, Join(parts[1..], sep));
      CountAppend(c, parts[0], sep);
    }
  }
}
