/** The string operations the seed computation and the command line use:
    `includes`, `split` and `join` on one separator, the removal of trailing
    separators, and `Number.parseInt(s, 10)`. Strings are sequences of
    characters. */
module Text {
  import opened Common
  import Numbers

  predicate StartsWith(s: string, p: string) {
    |p| <= |s| && s[..|p|] == p
  }

  /** `s.includes(p)`: a prefix counts, and a pattern longer than the text
      never occurs. */
  function Includes(s: string, p: string): (r: bool)
    ensures StartsWith(s, p) ==> r
    ensures r ==> |p| <= |s|
    decreases |s|
  {
    StartsWith(s, p) || (|s| > 0 && Includes(s[1..], p))
  }

  predicate IsSuffix(r: string, s: string) {
    |r| <= |s| && r == s[|s| - |r|..]
  }

  predicate OccursAt(s: string, p: string, i: int) {
    0 <= i <= |s| - |p| && s[i..i + |p|] == p
  }

  /** `includes` holds exactly when `p` occurs at some position of `s`. */
  lemma {:induction false} IncludesMeansOccurs(s: string, p: string)
    ensures Includes(s, p) <==> exists i :: OccursAt(s, p, i)
    decreases |s|
  {
    if StartsWith(s, p) {
      assert OccursAt(s, p, 0);
    } else if |s| > 0 {
      IncludesMeansOccurs(s[1..], p);
      if Includes(s[1..], p) {
        var i :| OccursAt(s[1..], p, i);
        assert s[i + 1..i + 1 + |p|] == s[1..][i..i + |p|];
        assert OccursAt(s, p, i + 1);
      }
      if i :| OccursAt(s, p, i) {
        assert i != 0;
        assert s[1..][i - 1..i - 1 + |p|] == s[i..i + |p|];
        assert OccursAt(s[1..], p, i - 1);
      }
    }
  }

  /** The position of the first `c` in `s`. */
  function IndexOf(s: string, c: char): (r: Option<nat>)
    ensures r.Some? ==> r.value < |s| && s[r.value] == c && c !in s[..r.value]
    ensures r.None? ==> c !in s
  {
    if |s| == 0 then None
    else if s[0] == c then Some(0)
    else match IndexOf(s[1..], c)
      case None => None
      case Some(i) => assert s[..i + 1] == [s[0]] + s[1..][..i]; Some(i + 1)
  }

  /** `s.split(c)`: the pieces between the separators, at least one. */
  function Split(s: string, c: char): (parts: seq<string>)
    ensures |parts| >= 1
    ensures forall k :: 0 <= k < |parts| ==> c !in parts[k]
    decreases |s|
  {
    match IndexOf(s, c)
    case None => [s]
    case Some(i) => [s[..i]] + Split(s[i + 1..], c)
  }

  /** `parts.join(c)`: the first piece, then a separator before each further
      piece. */
  function Join(parts: seq<string>, c: char): (r: string)
    ensures |parts| == 1 ==> r == parts[0]
  {
    if |parts| == 0 then ""
    else if |parts| == 1 then parts[0]
    else parts[0] + [c] + Join(parts[1..], c)
  }

  /** Splitting and joining on the same separator gives back the string. */
  lemma {:induction false} JoinSplit(s: string, c: char)
    ensures Join(Split(s, c), c) == s
    decreases |s|
  {
    match IndexOf(s, c)
    case None =>
    case Some(i) =>
      var rest := Split(s[i + 1..], c);
      var parts := [s[..i]] + rest;
      assert parts[0] == s[..i] && parts[1..] == rest;
      JoinSplit(s[i + 1..], c);
      assert Join(parts, c) == s[..i] + [c] + s[i + 1..];
      assert s == s[..i] + [c] + s[i + 1..];
  }

  /** The first separator of `a + [c] + b` is the one after `a`, when `a`
      has none. */
  lemma IndexOfAfter(a: string, c: char, b: string)
    requires c !in a
    ensures IndexOf(a + [c] + b, c) == Some(|a|)
  {
    var s := a + [c] + b;
    assert s[|a|] == c;
    assert s[..|a|] == a;
  }

  /** Joining pieces that hold no separator and splitting again gives back
      the pieces. */
  lemma {:induction false} SplitJoin(parts: seq<string>, c: char)
    requires |parts| >= 1 && forall k :: 0 <= k < |parts| ==> c !in parts[k]
    ensures Split(Join(parts, c), c) == parts
    decreases |parts|
  {
    if |parts| == 1 {
      assert c !in parts[0];
    } else {
      var rest := Join(parts[1..], c);
      var s := parts[0] + [c] + rest;
      assert Join(parts, c) == s;
      IndexOfAfter(parts[0], c, rest);
      assert s[..|parts[0]|] == parts[0];
      assert s[|parts[0]| + 1..] == rest;
      SplitJoin(parts[1..], c);
      assert parts == [parts[0]] + parts[1..];
    }
  }

  /** The text after the `k`-th separator, or "" when `s` has fewer than `k`. */
  function AfterSeparators(s: string, c: char, k: nat): string
    decreases k
  {
    if k == 0 then s
    else match IndexOf(s, c)
      case None => ""
      case Some(i) => AfterSeparators(s[i + 1..], c, k - 1)
  }

  /** The text after a separator is a suffix of the text. */
  lemma {:induction false} AfterSeparatorsSuffix(s: string, c: char, k: nat)
    ensures IsSuffix(AfterSeparators(s, c, k), s)
    decreases k
  {
    if k == 0 {
      assert s[0..] == s;
    } else {
      match IndexOf(s, c)
      case None =>
        assert s[|s|..] == "";
      case Some(i) =>
        var rest := s[i + 1..];
        AfterSeparatorsSuffix(rest, c, k - 1);
        var r := AfterSeparators(rest, c, k - 1);
        assert AfterSeparators(s, c, k) == r;
        assert s[|s| - |r|..] == rest[|rest| - |r|..];
    }
  }

  /** `parts.slice(k)`: the pieces from the `k`-th on, none when there are
      fewer. */
  function Drop(parts: seq<string>, k: nat): (r: seq<string>)
    ensures |r| == if k < |parts| then |parts| - k else 0
    ensures k <= |parts| ==> parts[..k] + r == parts
  {
    parts[if k < |parts| then k else |parts|..]
  }

  lemma DropFirst(first: string, rest: seq<string>, k: nat)
    ensures Drop([first] + rest, k + 1) == Drop(rest, k)
  {
    var parts := [first] + rest;
    if k < |rest| {
      assert parts[k + 1..] == rest[k..];
    }
  }

  /** `s.split(c).slice(k).join(c)` is the text after the `k`-th separator. */
  lemma {:induction false} SliceJoin(s: string, c: char, k: nat)
    ensures Join(Drop(Split(s, c), k), c) == AfterSeparators(s, c, k)
    decreases k
  {
    if k == 0 {
      assert Drop(Split(s, c), 0) == Split(s, c);
      JoinSplit(s, c);
    } else {
      match IndexOf(s, c)
      case None =>
        assert Split(s, c) == [s];
        assert Drop([s], k) == [];
        assert AfterSeparators(s, c, k) == "";
      case Some(i) =>
        SliceJoin(s[i + 1..], c, k - 1);
        SliceJoinPast(s, c, k, i);
    }
  }

  /** The step of `SliceJoin` past the first separator, at `i`. */
  lemma SliceJoinPast(s: string, c: char, k: nat, i: nat)
    requires k > 0 && IndexOf(s, c) == Some(i)
    requires Join(Drop(Split(s[i + 1..], c), k - 1), c) == AfterSeparators(s[i + 1..], c, k - 1)
    ensures Join(Drop(Split(s, c), k), c) == AfterSeparators(s, c, k)
  {
    var rest := s[i + 1..];
    assert Split(s, c) == [s[..i]] + Split(rest, c);
    DropFirst(s[..i], Split(rest, c), k - 1);
    assert AfterSeparators(s, c, k) == AfterSeparators(rest, c, k - 1);
  }

  /** Joining the pieces before the last one and the last one. */
  lemma {:induction false} JoinLast(parts: seq<string>, c: char)
    requires |parts| >= 2
    ensures Join(parts, c) == Join(parts[..|parts| - 1], c) + [c] + parts[|parts| - 1]
    decreases |parts|
  {
    if |parts| > 2 {
      JoinLast(parts[1..], c);
      assert parts[1..][..|parts| - 2] == parts[..|parts| - 1][1..];
    }
  }

  /** `s.replace(/c+$/, "")`: `s` without the separators it ends with. */
  function TrimEnd(s: string, c: char): (r: string)
    ensures |r| <= |s| && r == s[..|r|]
    ensures |r| == 0 || r[|r| - 1] != c
    ensures forall i :: |r| <= i < |s| ==> s[i] == c
    decreases |s|
  {
    if |s| > 0 && s[|s| - 1] == c then TrimEnd(s[..|s| - 1], c) else s
  }

  /** The characters `parseInt` skips before the number: ECMAScript's
      WhiteSpace and LineTerminator. */
  predicate IsSpace(ch: char) {
    ch == '\t' || ch == '\n' || ch == '\U{000B}' || ch == '\U{000C}' || ch == '\r' || ch == ' '
    || ch == '\U{00A0}' || ch == '\U{1680}' || ('\U{2000}' <= ch <= '\U{200A}')
    || ch == '\U{2028}' || ch == '\U{2029}' || ch == '\U{202F}' || ch == '\U{205F}'
    || ch == '\U{3000}' || ch == '\U{FEFF}'
  }

  function TrimStart(s: string): (r: string)
    ensures |r| <= |s| && r == s[|s| - |r|..]
    ensures |r| == 0 || !IsSpace(r[0])
    ensures forall i :: 0 <= i < |s| - |r| ==> IsSpace(s[i])
  {
    if |s| > 0 && IsSpace(s[0]) then TrimStart(s[1..]) else s
  }

  predicate IsDigit(ch: char) {
    '0' <= ch <= '9'
  }

  predicate AllDigits(s: string) {
    forall i :: 0 <= i < |s| ==> IsDigit(s[i])
  }

  /** The longest prefix of decimal digits. */
  function LeadingDigits(s: string): (d: string)
    ensures |d| <= |s| && d == s[..|d|] && AllDigits(d)
    ensures |d| == |s| || !IsDigit(s[|d|])
  {
    if |s| > 0 && IsDigit(s[0]) then
      var rest := LeadingDigits(s[1..]);
      assert s[..1 + |rest|] == [s[0]] + rest;
      [s[0]] + rest
    else ""
  }

  /** The number a string of decimal digits denotes. */
  function DigitsValue(d: string): nat
    requires AllDigits(d)
  {
    if |d| == 0 then 0 else DigitsValue(d[..|d| - 1]) * 10 + (d[|d| - 1] as int - '0' as int)
  }

  /** The integer `parseInt` reads before rounding: skip white space, read an
      optional sign and the longest run of digits; nothing when there is no
      digit. */
  function ParsedInteger(s: string): (r: Option<int>)
    ensures var t := TrimStart(s);
      var body := if |t| > 0 && (t[0] == '-' || t[0] == '+') then t[1..] else t;
      r.None? <==> LeadingDigits(body) == ""
  {
    var t := TrimStart(s);
    var negative := |t| > 0 && t[0] == '-';
    var body := if |t| > 0 && (t[0] == '-' || t[0] == '+') then t[1..] else t;
    var digits := LeadingDigits(body);
    if digits == "" then None
    else
      var v := DigitsValue(digits);
      Some(if negative then -(v as int) else v)
  }

  /** `Number.parseInt(s, 10)`: NaN when there is no digit, otherwise the
      integer read, rounded to a double, which is an infinity of the same sign
      when it is too large for one. */
  function ParseInt(s: string): (r: Num)
    ensures r.NaN? <==> ParsedInteger(s).None?
    ensures r.Finite? ==> r.value == Numbers.RoundToDouble(ParsedInteger(s).value)
    ensures r.Finite? && -Numbers.TwoTo53 <= ParsedInteger(s).value <= Numbers.TwoTo53 ==> r.value == ParsedInteger(s).value
    ensures r.Infinite? ==> r.negative == (ParsedInteger(s).value < 0)
  {
    match ParsedInteger(s)
    case None => NaN
    case Some(v) => Numbers.ToDouble(v)
  }

  function DigitChar(d: nat): (ch: char)
    requires d < 10
    ensures IsDigit(ch) && ch as int - '0' as int == d
  {
    ('0' as int + d) as char
  }

  /** The decimal notation of `n`, as `String(n)` writes it. */
  function Decimal(n: nat): (s: string)
    ensures |s| >= 1 && AllDigits(s)
  {
    if n < 10 then [DigitChar(n)] else Decimal(n / 10) + [DigitChar(n % 10)]
  }

  lemma {:induction false} DecimalValue(n: nat)
    ensures DigitsValue(Decimal(n)) == n
  {
    if n >= 10 {
      DecimalValue(n / 10);
      var s := Decimal(n);
      assert s[..|s| - 1] == Decimal(n / 10);
    }
  }

  lemma {:induction false} LeadingDigitsOf(d: string, rest: string)
    requires AllDigits(d)
    requires rest == "" || !IsDigit(rest[0])
    ensures LeadingDigits(d + rest) == d
    decreases |d|
  {
    if |d| > 0 {
      LeadingDigitsOf(d[1..], rest);
      assert (d + rest)[1..] == d[1..] + rest;
    } else {
      assert d + rest == rest;
    }
  }

  lemma DigitNotSpace(ch: char)
    requires IsDigit(ch)
    ensures !IsSpace(ch)
  {
  }

  lemma TrimStartOfNonSpace(s: string)
    requires |s| > 0 && !IsSpace(s[0])
    ensures TrimStart(s) == s
  {
  }

  /** A run of digits reads as the number it denotes, up to the first
      character that is not a digit. */
  lemma ParsedDigits(d: string, rest: string)
    requires |d| > 0 && AllDigits(d)
    requires rest == "" || !IsDigit(rest[0])
    ensures ParsedInteger(d + rest) == Some(DigitsValue(d))
  {
    assert (d + rest)[0] == d[0];
    ParsedLeading(d + rest);
    LeadingDigitsOf(d, rest);
  }

  /** A string that starts with a digit reads as its leading digits. */
  lemma ParsedLeading(s: string)
    requires |s| > 0 && IsDigit(s[0])
    ensures ParsedInteger(s) == Some(DigitsValue(LeadingDigits(s)))
  {
    DigitNotSpace(s[0]);
    TrimStartOfNonSpace(s);
    assert s[0] != '-' && s[0] != '+';
    assert LeadingDigits(s) != "" by { assert LeadingDigits(s)[0] == s[0]; }
  }

  /** `parseInt` reads back the decimal notation of any integer a double holds
      exactly, and ignores what follows the digits. */
  lemma ParseIntOfDecimal(n: nat, rest: string)
    requires n <= Numbers.TwoTo53
    requires rest == "" || !IsDigit(rest[0])
    ensures ParseInt(Decimal(n) + rest) == Finite(n)
  {
    ParsedDigits(Decimal(n), rest);
    DecimalValue(n);
  }
}
