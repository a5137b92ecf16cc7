/**
 * The string operations the generators and the model rely on, each written
 * to behave like the Python or JavaScript built-in it stands for
 * (`str.split`, `str.join`, `str.strip`, `str.startswith`, `in`,
 * `str.replace` of one character, `str(int)`, `int(str)`, `toLowerCase`).
 */
module Strings {
  import opened Wrappers

  // ---------------------------------------------------------------------
  // Prefixes and substrings
  // ---------------------------------------------------------------------

  /** `s.startswith(p)` */
  predicate StartsWith(s: string, p: string) {
    |p| <= |s| && s[..|p|] == p
  }

  lemma StartsWithChar(s: string, p: string, k: nat)
    requires StartsWith(s, p) && k < |p|
    ensures s[k] == p[k]
  {
    assert s[..|p|][k] == s[k];
  }

  lemma StartsWithAppend(p: string, q: string)
    ensures StartsWith(p + q, p)
  {
    assert (p + q)[..|p|] == p;
  }

  /** `sub` occurs in `s` starting at index `i`. */
  predicate OccursAt(s: string, sub: string, i: nat) {
    i + |sub| <= |s| && s[i..i + |sub|] == sub
  }

  /** `sub in s` */
  predicate Contains(s: string, sub: string) {
    exists i :: 0 <= i <= |s| && OccursAt(s, sub, i)
  }

  lemma OccursAtChar(s: string, sub: string, i: nat, k: nat)
    requires OccursAt(s, sub, i) && k < |sub|
    ensures s[i + k] == sub[k]
  {
    assert s[i..i + |sub|][k] == s[i + k];
  }

  /** A string in which some character of `sub` never appears does not contain `sub`. */
  lemma NotContainsByChar(s: string, sub: string, k: nat)
    requires k < |sub| && sub[k] !in s
    ensures !Contains(s, sub)
  {
    forall i | 0 <= i <= |s| ensures !OccursAt(s, sub, i) {
      if i + |sub| <= |s| {
        assert s[i..i + |sub|][k] == s[i + k];
        assert s[i + k] in s;
      }
    }
  }

  // ---------------------------------------------------------------------
  // str.split and str.join
  // ---------------------------------------------------------------------

  /**
   * `s.split(sep)` for a non-empty separator: the text is scanned from the
   * left, every non-overlapping occurrence of `sep` ends a piece.
   */
  function Split(s: string, sep: string): (pieces: seq<string>)
    requires |sep| > 0
    ensures |pieces| >= 1
    decreases |s|
  {
    if |s| < |sep| then [s]
    else if s[..|sep|] == sep then [""] + Split(s[|sep|..], sep)
    else
      var rest := Split(s[1..], sep);
      [[s[0]] + rest[0]] + rest[1..]
  }

  function Last<T>(s: seq<T>): T
    requires |s| > 0
  {
    s[|s| - 1]
  }

  /** A string without the separator splits into itself. */
  lemma {:induction false} SplitWithoutSeparator(s: string, sep: string)
    requires |sep| > 0 && !Contains(s, sep)
    ensures Split(s, sep) == [s]
    decreases |s|
  {
    if |s| >= |sep| {
      assert !OccursAt(s, sep, 0);
      assert s[..|sep|] != sep;
      NoSeparatorInTail(s, sep);
      SplitWithoutSeparator(s[1..], sep);
      assert [s[0]] + s[1..] == s;
    }
  }

  /**
   * When the separator cannot overlap itself (its first character does not
   * recur in it) and `q` holds no separator, the last piece of
   * `(p + sep + q).split(sep)` is `q`, whatever `p` is.
   */
  lemma {:induction false} SplitLastPiece(p: string, sep: string, q: string)
    requires |sep| > 0 && sep[0] !in sep[1..]
    requires !Contains(q, sep)
    ensures |Split(p + sep + q, sep)| >= 2
    ensures Last(Split(p + sep + q, sep)) == q
    decreases |p|
  {
    var s := p + sep + q;
    if |p| == 0 {
      assert s == sep + q;
      assert s[..|sep|] == sep;
      assert s[|sep|..] == q;
      SplitWithoutSeparator(q, sep);
    } else if |p| < |sep| {
      NoSeparatorAtStart(p, sep, q);
      assert s[1..] == p[1..] + sep + q;
      SplitLastPiece(p[1..], sep, q);
      SplitSkipKeepsLast(s, sep);
    } else if s[..|sep|] == sep {
      assert s[|sep|..] == p[|sep|..] + sep + q;
      SplitLastPiece(p[|sep|..], sep, q);
    } else {
      assert s[1..] == p[1..] + sep + q;
      SplitLastPiece(p[1..], sep, q);
      SplitSkipKeepsLast(s, sep);
    }
  }

  /** A separator that cannot overlap itself does not start inside a shorter prefix `p`. */
  lemma NoSeparatorAtStart(p: string, sep: string, q: string)
    requires 0 < |p| < |sep| && sep[0] !in sep[1..]
    ensures (p + sep + q)[..|sep|] != sep
  {
    var s := p + sep + q;
    assert s[..|sep|][|p|] == sep[0];
    assert sep[|p|] in sep[1..];
  }

  /** When the text does not start with the separator, its last piece is that of its tail. */
  lemma SplitSkipKeepsLast(s: string, sep: string)
    requires |sep| > 0 && |s| >= |sep| && s[..|sep|] != sep
    requires |Split(s[1..], sep)| >= 2
    ensures |Split(s, sep)| >= 2 && Last(Split(s, sep)) == Last(Split(s[1..], sep))
  {
    var rest := Split(s[1..], sep);
    assert Split(s, sep) == [[s[0]] + rest[0]] + rest[1..];
    LastAfterFirst([s[0]] + rest[0], rest);
  }

  /** Replacing the first element keeps the length and, past one element, the last. */
  lemma LastAfterFirst<T>(x: T, rest: seq<T>)
    requires |rest| >= 2
    ensures |[x] + rest[1..]| == |rest| && Last([x] + rest[1..]) == Last(rest)
  {
    assert ([x] + rest[1..])[|rest| - 1] == rest[1..][|rest| - 2];
  }

  /** The text before the first occurrence of `c` (all of it when `c` does not occur). */
  function TakeUntil(s: string, c: char): (r: string)
    ensures r <= s && c !in r
  {
    if s == [] || s[0] == c then [] else [s[0]] + TakeUntil(s[1..], c)
  }

  lemma {:induction false} TakeUntilOf(k: string, c: char, rest: string)
    requires c !in k
    ensures TakeUntil(k + [c] + rest, c) == k
  {
    if k != [] {
      assert (k + [c] + rest)[1..] == k[1..] + [c] + rest;
      TakeUntilOf(k[1..], c, rest);
    }
  }

  lemma {:induction false} TakeUntilNone(s: string, c: char)
    requires c !in s
    ensures TakeUntil(s, c) == s
  {
    if s != [] {
      TakeUntilNone(s[1..], c);
    }
  }

  /** `sep.join(parts)` */
  function Join(parts: seq<string>, sep: string): string {
    if |parts| == 0 then ""
    else if |parts| == 1 then parts[0]
    else parts[0] + sep + Join(parts[1..], sep)
  }

  /**
   * When the separator cannot overlap itself and `p` holds no separator,
   * `(p + sep + q).split(sep)` is `p` followed by the pieces of `q`.
   */
  lemma {:induction false} SplitFirstPiece(p: string, sep: string, q: string)
    requires |sep| > 0 && sep[0] !in sep[1..]
    requires !Contains(p, sep)
    ensures Split(p + sep + q, sep) == [p] + Split(q, sep)
    decreases |p|
  {
    var s := p + sep + q;
    if |p| == 0 {
      assert s == sep + q;
      assert s[..|sep|] == sep;
      assert s[|sep|..] == q;
    } else {
      NotStartingWithSeparator(p, sep, q);
      NoSeparatorInTail(p, sep);
      assert s[1..] == p[1..] + sep + q;
      SplitFirstPiece(p[1..], sep, q);
      var rest := Split(s[1..], sep);
      assert Split(s, sep) == [[s[0]] + rest[0]] + rest[1..];
      ExtendFirstPiece(s[0], p[1..], Split(q, sep));
      assert [s[0]] + p[1..] == p;
    }
  }

  /** A text without the separator keeps none after its first character. */
  lemma NoSeparatorInTail(p: string, sep: string)
    requires |p| > 0 && !Contains(p, sep)
    ensures !Contains(p[1..], sep)
  {
    forall i | 0 <= i <= |p[1..]| ensures !OccursAt(p[1..], sep, i) {
      assert !OccursAt(p, sep, i + 1);
      if i + |sep| <= |p[1..]| {
        assert p[1..][i..i + |sep|] == p[i + 1..i + 1 + |sep|];
      }
    }
  }

  /** `p + sep + q` does not start with a separator that cannot overlap itself when `p` holds none. */
  lemma NotStartingWithSeparator(p: string, sep: string, q: string)
    requires 0 < |p| && |sep| > 0 && sep[0] !in sep[1..] && !Contains(p, sep)
    ensures |p + sep + q| >= |sep| && (p + sep + q)[..|sep|] != sep
  {
    if |p| < |sep| {
      NoSeparatorAtStart(p, sep, q);
    } else {
      assert (p + sep + q)[..|sep|] == p[..|sep|];
      assert !OccursAt(p, sep, 0);
    }
  }

  /** Putting `c` in front of the first piece of `[x] + ys`. */
  lemma ExtendFirstPiece(c: char, x: string, ys: seq<string>)
    ensures [[c] + ([x] + ys)[0]] + ([x] + ys)[1..] == [[c] + x] + ys
  {
    assert ([x] + ys)[1..] == ys;
  }

  /** Splitting a join on the same separator gives the parts back, when no part holds the separator. */
  lemma {:induction false} SplitJoin(parts: seq<string>, sep: string)
    requires |sep| > 0 && sep[0] !in sep[1..] && |parts| > 0
    requires forall k :: 0 <= k < |parts| ==> !Contains(parts[k], sep)
    ensures Split(Join(parts, sep), sep) == parts
    decreases |parts|
  {
    if |parts| == 1 {
      SplitWithoutSeparator(parts[0], sep);
    } else {
      SplitJoin(parts[1..], sep);
      SplitFirstPiece(parts[0], sep, Join(parts[1..], sep));
      assert [parts[0]] + parts[1..] == parts;
    }
  }

  /** Joining non-empty parts gives the empty string exactly when there are no parts. */
  lemma {:induction false} JoinEmpty(parts: seq<string>, sep: string)
    requires forall k :: 0 <= k < |parts| ==> |parts[k]| > 0
    ensures Join(parts, sep) == "" <==> parts == []
  {
    if |parts| > 1 {
      assert |Join(parts, sep)| >= |parts[0]|;
    }
  }

  // ---------------------------------------------------------------------
  // Character maps and whitespace
  // ---------------------------------------------------------------------

  /** `s.replace(a, b)` for single characters `a` and `b` */
  function ReplaceChar(s: string, a: char, b: char): (r: string)
    ensures |r| == |s|
    ensures forall k :: 0 <= k < |s| ==> r[k] == if s[k] == a then b else s[k]
  {
    if |s| == 0 then "" else [if s[0] == a then b else s[0]] + ReplaceChar(s[1..], a, b)
  }

  /** The lower-case form of one character; only ASCII letters change. */
  function LowerChar(c: char): char {
    if 'A' <= c <= 'Z' then (c as int - 'A' as int + 'a' as int) as char else c
  }

  function ToLower(s: string): (r: string)
    ensures |r| == |s|
    ensures forall k :: 0 <= k < |s| ==> r[k] == LowerChar(s[k])
  {
    if |s| == 0 then "" else [LowerChar(s[0])] + ToLower(s[1..])
  }

  /** The characters `str.isspace()` accepts, which `str.strip()` and `str.split()` treat as whitespace:
      the ASCII controls 9 to 13 and 28 to 31, the space, and the Unicode separators and spaces. */
  predicate IsSpace(c: char) {
    ('\U{9}' <= c <= '\U{D}') || ('\U{1C}' <= c <= ' ')
    || c == '\U{85}' || c == '\U{A0}' || c == '\U{1680}'
    || ('\U{2000}' <= c <= '\U{200A}') || c == '\U{2028}' || c == '\U{2029}'
    || c == '\U{202F}' || c == '\U{205F}' || c == '\U{3000}'
  }

  function StripLeft(s: string): string {
    if |s| > 0 && IsSpace(s[0]) then StripLeft(s[1..]) else s
  }

  function StripRight(s: string): string {
    if |s| > 0 && IsSpace(s[|s| - 1]) then StripRight(s[..|s| - 1]) else s
  }

  /** `s.strip()` */
  function Strip(s: string): string {
    StripRight(StripLeft(s))
  }

  /** Leading spaces are removed by `lstrip`, up to the first other character. */
  lemma {:induction false} StripLeftIndent(ind: string, t: string)
    requires forall k :: 0 <= k < |ind| ==> ind[k] == ' '
    requires t == [] || !IsSpace(t[0])
    ensures StripLeft(ind + t) == t
  {
    if ind != [] {
      assert (ind + t)[1..] == ind[1..] + t;
      StripLeftIndent(ind[1..], t);
    }
  }

  /** Whitespace around a word is removed by `strip`. */
  lemma StripPadded(w: string)
    requires |w| == 0 || (!IsSpace(w[0]) && !IsSpace(w[|w| - 1]))
    ensures Strip(" " + w) == w
  {
    assert (" " + w)[1..] == w;
    assert StripLeft(" " + w) == StripLeft(w);
    assert StripLeft(w) == w;
    assert StripRight(w) == w;
  }

  // ---------------------------------------------------------------------
  // Decimal numerals: str(n) and int(s)
  // ---------------------------------------------------------------------

  predicate IsDigit(c: char) {
    '0' <= c <= '9'
  }

  predicate AllDigits(s: string) {
    forall k :: 0 <= k < |s| ==> IsDigit(s[k])
  }

  function DigitChar(d: nat): (c: char)
    requires d < 10
    ensures IsDigit(c)
  {
    ('0' as int + d) as char
  }

  function DigitValue(c: char): (d: nat)
    requires IsDigit(c)
    ensures d < 10
  {
    c as int - '0' as int
  }

  /** `str(n)` for a non-negative integer: decimal digits, no leading zero. */
  function NatToString(n: nat): (s: string)
    ensures |s| >= 1 && AllDigits(s)
  {
    if n < 10 then [DigitChar(n)] else NatToString(n / 10) + [DigitChar(n % 10)]
  }

  /** `str(i)` for any integer */
  function IntToString(i: int): (s: string)
    ensures |s| >= 1
    ensures forall k :: 0 <= k < |s| ==> IsDigit(s[k]) || s[k] == '-'
  {
    if i < 0 then "-" + NatToString(-i) else NatToString(i)
  }

  /** The value of a string of decimal digits. */
  function DigitsValue(s: string): nat
    requires AllDigits(s)
  {
    if |s| == 0 then 0 else DigitsValue(s[..|s| - 1]) * 10 + DigitValue(s[|s| - 1])
  }

  /**
   * `int(s)` on an optional sign followed by one or more ASCII digits;
   * anything else raises ValueError, here `None`.
   */
  function ParseInt(s: string): Option<int> {
    if |s| >= 2 && s[0] == '-' && AllDigits(s[1..]) then Some(-(DigitsValue(s[1..]) as int))
    else if |s| >= 2 && s[0] == '+' && AllDigits(s[1..]) then Some(DigitsValue(s[1..]))
    else if |s| >= 1 && AllDigits(s) then Some(DigitsValue(s))
    else None
  }

  lemma {:induction false} DigitsOfNat(n: nat)
    ensures DigitsValue(NatToString(n)) == n
  {
    if n >= 10 {
      var s := NatToString(n);
      assert s[..|s| - 1] == NatToString(n / 10);
      DigitsOfNat(n / 10);
    }
  }

  /** A digit string reads back as its number. */
  lemma ParseNatString(n: nat)
    ensures ParseInt(NatToString(n)) == Some(n)
  {
    var s := NatToString(n);
    assert IsDigit(s[0]);
    DigitsOfNat(n);
  }

  /** A minus sign and a digit string read back as the negated number. */
  lemma ParseNegatedString(n: nat)
    ensures ParseInt("-" + NatToString(n)) == Some(-(n as int))
  {
    var t := NatToString(n);
    assert ("-" + t)[1..] == t;
    DigitsOfNat(n);
  }

  /** `int(str(i)) == i` */
  lemma ParseIntToString(i: int)
    ensures ParseInt(IntToString(i)) == Some(i)
  {
    if i < 0 {
      ParseNegatedString(-i);
    } else {
      ParseNatString(i);
    }
  }
}
