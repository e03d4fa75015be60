/**
 * The few Python string operations the core relies on: `str(int)`,
 * `str.strip()`, `str.split(sep)` and `sep.join(parts)`.
 */
module Text {
  import opened Wrappers

  predicate IsDigit(c: char) {
    '0' <= c <= '9'
  }

  predicate AllDigits(s: string) {
    forall i :: 0 <= i < |s| ==> IsDigit(s[i])
  }

  function DigitChar(d: nat): (c: char)
    requires d < 10
    ensures IsDigit(c) && c as int - '0' as int == d
  {
    (48 + d) as char
  }

  /** Decimal digits of a natural number, most significant first, without leading zeros. */
  function NatToDecimal(n: nat): (s: string)
    ensures |s| > 0 && AllDigits(s)
    ensures |s| > 1 ==> s[0] != '0'
    decreases n
  {
    if n < 10 then [DigitChar(n)] else NatToDecimal(n / 10) + [DigitChar(n % 10)]
  }

  /** Python's `str(i)` for an `int`: an optional minus sign, then the digits. */
  function IntToDecimal(i: int): string {
    if i < 0 then "-" + NatToDecimal(-i) else NatToDecimal(i)
  }

  /** The number a string of decimal digits denotes. */
  function DigitsValue(s: string): nat
    requires AllDigits(s)
  {
    if s == [] then 0
    else DigitsValue(s[..|s| - 1]) * 10 + (s[|s| - 1] as int - '0' as int)
  }

  /** Reads back an optionally negative decimal integer. */
  function ParseDecimal(s: string): Option<int> {
    if |s| > 1 && s[0] == '-' && AllDigits(s[1..]) then Some(0 - DigitsValue(s[1..]) as int)
    else if |s| > 0 && AllDigits(s) then Some(DigitsValue(s))
    else None
  }

  lemma {:induction false} DigitsOfNat(n: nat)
    ensures DigitsValue(NatToDecimal(n)) == n
    decreases n
  {
    var s := NatToDecimal(n);
    if n >= 10 {
      DigitsOfNat(n / 10);
      assert s[..|s| - 1] == NatToDecimal(n / 10);
    }
  }

  /** `str(i)` is read back as `i`: the number given to `--tail` survives rendering. */
  lemma DecimalRoundTrip(i: int)
    ensures ParseDecimal(IntToDecimal(i)) == Some(i)
  {
    if i < 0 {
      var s := IntToDecimal(i);
      assert s[1..] == NatToDecimal(-i);
      DigitsOfNat(-i);
    } else {
      DigitsOfNat(i);
    }
  }

  /** The characters Python's `str.isspace()` accepts, hence what `str.strip()` removes. */
  predicate IsSpace(c: char) {
    c in {'\t', '\n', '\U{000B}', '\U{000C}', '\r', '\U{001C}', '\U{001D}', '\U{001E}', '\U{001F}',
          ' ', '\U{0085}', '\U{00A0}', '\U{1680}', '\U{2028}', '\U{2029}', '\U{202F}', '\U{205F}',
          '\U{3000}'}
    || ('\U{2000}' <= c <= '\U{200A}')
  }

  /** `s.lstrip()`: the suffix of s left after dropping leading whitespace. */
  function StripLeft(s: string): (r: string)
    ensures |r| <= |s| && r == s[|s| - |r|..]
    ensures r != [] ==> !IsSpace(r[0])
    ensures forall k :: 0 <= k < |s| - |r| ==> IsSpace(s[k])
  {
    if s != [] && IsSpace(s[0]) then StripLeft(s[1..]) else s
  }

  /** `s.rstrip()`: the prefix of s left after dropping trailing whitespace. */
  function StripRight(s: string): (r: string)
    ensures |r| <= |s| && r == s[..|r|]
    ensures r != [] ==> !IsSpace(r[|r| - 1])
    ensures forall k :: |r| <= k < |s| ==> IsSpace(s[k])
  {
    if s != [] && IsSpace(s[|s| - 1]) then StripRight(s[..|s| - 1]) else s
  }

  /** `s.strip()`. */
  function Strip(s: string): (r: string) {
    StripRight(StripLeft(s))
  }

  /** `s.split(sep)` for a one-character separator: there is always at least one part. */
  function Split(s: string, sep: char): (parts: seq<string>)
    ensures |parts| >= 1
    ensures forall i :: 0 <= i < |parts| ==> sep !in parts[i]
  {
    if s == [] then [""]
    else
      var rest := Split(s[1..], sep);
      if s[0] == sep then [""] + rest
      else [[s[0]] + rest[0]] + rest[1..]
  }

  /** `sep.join(parts)`. */
  function JoinWith(sep: string, parts: seq<string>): string {
    if parts == [] then ""
    else if |parts| == 1 then parts[0]
    else parts[0] + sep + JoinWith(sep, parts[1..])
  }

  /** A separator-free part followed by the separator splits off as one part. */
  lemma {:induction false} SplitPrefix(p: string, sep: char, rest: string)
    requires sep !in p
    ensures Split(p + [sep] + rest, sep) == [p] + Split(rest, sep)
  {
    var s := p + [sep] + rest;
    if p == [] {
      assert s == [sep] + rest && s[1..] == rest;
    } else {
      assert s[1..] == p[1..] + [sep] + rest;
      SplitPrefix(p[1..], sep, rest);
      assert [p[0]] + p[1..] == p;
    }
  }

  /** Text without the separator is a single part. */
  lemma {:induction false} SplitNoSep(p: string, sep: char)
    requires sep !in p
    ensures Split(p, sep) == [p]
  {
    if p != [] {
      SplitNoSep(p[1..], sep);
      assert [p[0]] + p[1..] == p;
    }
  }

  /** Joining separator-free parts and splitting again gives back the parts. */
  lemma {:induction false} JoinSplit(parts: seq<string>, sep: char)
    requires |parts| >= 1
    requires forall i :: 0 <= i < |parts| ==> sep !in parts[i]
    ensures Split(JoinWith([sep], parts), sep) == parts
  {
    if |parts| == 1 {
      SplitNoSep(parts[0], sep);
    } else {
      JoinSplit(parts[1..], sep);
      SplitPrefix(parts[0], sep, JoinWith([sep], parts[1..]));
      assert [parts[0]] + parts[1..] == parts;
    }
  }

  /** A join of non-empty parts starts with the first part's first character and ends with the last part's last. */
  lemma {:induction false} JoinEnds(sep: string, parts: seq<string>)
    requires |parts| >= 1
    requires forall i :: 0 <= i < |parts| ==> parts[i] != []
    ensures var j := JoinWith(sep, parts); var last := parts[|parts| - 1];
      |j| > 0 && j[0] == parts[0][0] && j[|j| - 1] == last[|last| - 1]
  {
    if |parts| > 1 {
      JoinEnds(sep, parts[1..]);
    }
  }

  /** Text that neither starts nor ends with whitespace, plus one trailing newline, strips to itself. */
  lemma StripTrailingNewline(s: string)
    requires s == [] || (!IsSpace(s[0]) && !IsSpace(s[|s| - 1]))
    ensures Strip(s + "\n") == s
  {
    var t := s + "\n";
    assert IsSpace('\n');
    assert t[..|t| - 1] == s;
    if s == [] {
      assert StripLeft(t) == StripLeft(t[1..]);
      assert t[1..] == [];
      assert StripRight([]) == [];
    } else {
      assert t[0] == s[0];
      assert StripLeft(t) == t;
      assert StripRight(t) == StripRight(s);
      assert StripRight(s) == s;
    }
  }
}
