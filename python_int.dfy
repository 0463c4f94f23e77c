/** Python's conversions between `int` and `str`: `int(s)` parses a field
    read from the CSV file, and `str(n)` (what an f-string does with an int)
    writes a count into a line of the report. */
module PyInt {
  import opened Optional

  /** The characters `int(s)` skips at either end of `s`: the ASCII
      whitespace `\t \n \v \f \r` and space, and every non-ASCII character
      for which `str.isspace()` holds. The ASCII separators U+001C to U+001F
      pass `str.isspace()` but are not skipped by `int(s)`. */
  const Whitespace: seq<char> :=
    [' ', '\t', '\n', '\U{B}', '\U{C}', '\r',
     '\U{85}', '\U{A0}', '\U{1680}', '\U{2000}', '\U{2001}', '\U{2002}', '\U{2003}', '\U{2004}',
     '\U{2005}', '\U{2006}', '\U{2007}', '\U{2008}', '\U{2009}', '\U{200A}', '\U{2028}', '\U{2029}',
     '\U{202F}', '\U{205F}', '\U{3000}']

  /** `c` occurs in `table`, looked up one entry at a time. */
  predicate Listed(c: char, table: seq<char>) {
    table != [] && (table[0] == c || Listed(c, table[1..]))
  }

  predicate IsSpace(c: char) {
    Listed(c, Whitespace)
  }

  lemma {:induction false} ListedBound(c: char, table: seq<char>)
    requires Listed(c, table)
    requires forall i :: 0 <= i < |table| ==> table[i] <= ' ' || table[i] >= '\U{85}'
    ensures c <= ' ' || c >= '\U{85}'
  {
    if table[0] != c {
      ListedBound(c, table[1..]);
    }
  }

  /** A character found in a table without the ASCII separators U+001C to
      U+001F is not one of them either. */
  lemma {:induction false} ListedNoSeparator(c: char, table: seq<char>)
    requires Listed(c, table)
    requires forall i :: 0 <= i < |table| ==> table[i] < '\U{1C}' || table[i] > '\U{1F}'
    ensures c < '\U{1C}' || c > '\U{1F}'
  {
    if table[0] != c {
      ListedNoSeparator(c, table[1..]);
    }
  }

  // The two lemmas below take the table as a parameter equal to
  // `Whitespace` rather than naming the constant: the verifier unfolds
  // `Listed` eagerly on a literal table, which makes the proofs slow.

  /** No whitespace character is one of the ASCII separators. */
  lemma SpaceIsNoSeparator(c: char, table: seq<char>)
    requires table == Whitespace && Listed(c, table)
    ensures c < '\U{1C}' || c > '\U{1F}'
  {
    ListedNoSeparator(c, table);
  }

  /** No whitespace character is a digit or a character of the number
      syntax, so the scanner below can test for them in any order. */
  lemma SpaceIsNotSyntax(c: char, table: seq<char>)
    requires table == Whitespace && Listed(c, table)
    ensures !IsDigit(c) && c != '_' && c != '+' && c != '-'
  {
    ListedBound(c, table);
  }

  predicate IsDigit(c: char) {
    '0' <= c <= '9'
  }

  function DigitValue(c: char): (d: nat)
    requires IsDigit(c)
    ensures d < 10
  {
    c as int - '0' as int
  }

  function DigitChar(d: nat): (c: char)
    requires d < 10
    ensures IsDigit(c) && DigitValue(c) == d
  {
    ('0' as int + d) as char
  }

  /** How far `int(s)` has got after reading a prefix of `s` from left to
      right: the grammar is whitespace, an optional sign, digits with single
      underscores between them, whitespace. */
  datatype Scan =
    | Leading                                     // only whitespace so far
    | Signed(negative: bool)                      // then a sign
    | InDigits(negative: bool, value: nat)        // the last character is a digit
    | AfterUnderscore(negative: bool, value: nat) // a `_` right after a digit
    | Trailing(negative: bool, value: nat)        // whitespace after the digits
    | Rejected                                    // `int(s)` raises ValueError

  /** Reading one more character. */
  function Next(st: Scan, c: char): Scan {
    match st
    case Leading =>
      if IsDigit(c) then InDigits(false, DigitValue(c))
      else if c == '+' then Signed(false)
      else if c == '-' then Signed(true)
      else if IsSpace(c) then Leading
      else Rejected
    case Signed(neg) =>
      if IsDigit(c) then InDigits(neg, DigitValue(c)) else Rejected
    case InDigits(neg, v) =>
      if IsDigit(c) then InDigits(neg, v * 10 + DigitValue(c))
      else if c == '_' then AfterUnderscore(neg, v)
      else if IsSpace(c) then Trailing(neg, v)
      else Rejected
    case AfterUnderscore(neg, v) =>
      if IsDigit(c) then InDigits(neg, v * 10 + DigitValue(c)) else Rejected
    case Trailing(neg, v) =>
      if IsSpace(c) then Trailing(neg, v) else Rejected
    case Rejected => Rejected
  }

  /** Reading all of `s`, first character first, starting from `st`. */
  function ScanFrom(st: Scan, s: string): Scan
    decreases |s|
  {
    if s == [] then st else ScanFrom(Next(st, s[0]), s[1..])
  }

  /** The value `int(...)` returns once the whole string has been read
      in state `st`. */
  function Accept(st: Scan): Option<int> {
    match st
    case InDigits(neg, v) => Some(if neg then -(v as int) else v as int)
    case Trailing(neg, v) => Some(if neg then -(v as int) else v as int)
    case _ => None
  }

  /** Python's `int(s)` for a string `s` in base 10; `None` where it raises
      ValueError. */
  function ParseInt(s: string): Option<int> {
    Accept(ScanFrom(Leading, s))
  }

  /** Python's `str(n)` for `n >= 0`: no sign, no leading zero. */
  function NatToString(n: nat): (r: string)
    ensures |r| > 0 && forall i :: 0 <= i < |r| ==> IsDigit(r[i])
    ensures r[0] == '0' <==> n == 0
  {
    if n < 10 then [DigitChar(n)]
    else
      var r := NatToString(n / 10) + [DigitChar(n % 10)];
      assert r[..|r| - 1] == NatToString(n / 10);
      r
  }

  /** Python's `str(n)`, which is also what `f"{n}"` writes. */
  function IntToString(n: int): string {
    if n < 0 then "-" + NatToString(-n) else NatToString(n)
  }

  /** Reading `a + b` is reading `a`, then `b`. */
  lemma {:induction false} ScanAppend(st: Scan, a: string, b: string)
    ensures ScanFrom(st, a + b) == ScanFrom(ScanFrom(st, a), b)
    decreases |a|
  {
    if a == [] {
      assert a + b == b;
    } else {
      assert (a + b)[1..] == a[1..] + b;
      ScanAppend(Next(st, a[0]), a[1..], b);
    }
  }

  lemma ScanAppendFrom(st: Scan, a: string, b: string, mid: Scan)
    requires ScanFrom(st, a) == mid
    ensures ScanFrom(st, a + b) == ScanFrom(mid, b)
  {
    ScanAppend(st, a, b);
  }

  /** Once `int(s)` has rejected a prefix, no suffix can rescue it. */
  lemma {:induction false} RejectedStays(s: string)
    ensures ScanFrom(Rejected, s) == Rejected
  {
    if s != [] {
      RejectedStays(s[1..]);
    }
  }

  /** The digits `str(n)` writes, read after the leading whitespace or
      after a sign, give `n` with that sign. */
  lemma {:induction false} ScanNat(st: Scan, negative: bool, n: nat)
    requires st == Signed(negative) || (st == Leading && !negative)
    ensures ScanFrom(st, NatToString(n)) == InDigits(negative, n)
  {
    var s := NatToString(n);
    var last := [DigitChar(n % 10)];
    if n >= 10 {
      ScanAppend(st, NatToString(n / 10), last);
      ScanNat(st, negative, n / 10);
    }
    assert last[1..] == [];
  }

  lemma ScanIntString(n: int)
    ensures ScanFrom(Leading, IntToString(n)) == InDigits(n < 0, if n < 0 then -n else n)
  {
    if n < 0 {
      ScanAppend(Leading, "-", NatToString(-n));
      assert ScanFrom(Leading, "-") == Signed(true) by {
        assert "-"[1..] == [];
      }
      ScanNat(Signed(true), true, -n);
    } else {
      ScanNat(Leading, false, n);
    }
  }

  /** Parsing what `str(n)` writes gives `n` back. */
  lemma ParseIntOfString(n: int)
    ensures ParseInt(IntToString(n)) == Some(n)
  {
    ScanIntString(n);
  }

  /** The ASCII information separators are no whitespace to `int(s)`: a
      field that starts with one raises, whatever follows. */
  lemma SeparatorRejected(c: char, rest: string)
    requires '\U{1C}' <= c <= '\U{1F}'
    ensures ParseInt([c] + rest) == None
  {
    assert !IsSpace(c) by {
      if Listed(c, Whitespace) {
        SpaceIsNoSeparator(c, Whitespace);
      }
    }
    assert ([c] + rest)[1..] == rest;
    RejectedStays(rest);
  }

  /** The characters `int(s)` can accept in base 10. */
  predicate IntChar(c: char) {
    IsSpace(c) || IsDigit(c) || c == '_' || c == '+' || c == '-'
  }

  /** `int(s)` raises for any string holding some other character, such as
      a letter, a decimal point or a thousands comma. */
  lemma ParseIntChars(s: string)
    requires ParseInt(s).Some?
    ensures forall i :: 0 <= i < |s| ==> IntChar(s[i])
  {
    forall i | 0 <= i < |s|
      ensures IntChar(s[i])
    {
      if !IntChar(s[i]) {
        assert s == s[..i] + ([s[i]] + s[i + 1..]);
        ScanAppend(Leading, s[..i], [s[i]] + s[i + 1..]);
        assert ([s[i]] + s[i + 1..])[1..] == s[i + 1..];
        RejectedStays(s[i + 1..]);
        assert false;
      }
    }
  }

  /** Whitespace leaves the scan where it is before and after the digits,
      except that the first one after the digits ends them. */
  lemma {:induction false} ScanSpaces(st: Scan, pad: string)
    requires forall i :: 0 <= i < |pad| ==> IsSpace(pad[i])
    requires st.Leading? || st.InDigits? || st.Trailing?
    ensures ScanFrom(st, pad) ==
      if pad != [] && st.InDigits? then Trailing(st.negative, st.value) else st
    decreases |pad|
  {
    if pad != [] {
      SpaceIsNotSyntax(pad[0], Whitespace);
      var st' := if st.InDigits? then Trailing(st.negative, st.value) else st;
      ScanSpaces(st', pad[1..]);
    }
  }

  lemma AcceptDigits(st: Scan, n: int)
    requires st == InDigits(n < 0, if n < 0 then -n else n) ||
             st == Trailing(n < 0, if n < 0 then -n else n)
    ensures Accept(st) == Some(n)
  {
  }

  /** Reading a written number between runs of whitespace. */
  lemma ScanPadded(before: string, n: int, after: string)
    requires forall i :: 0 <= i < |before| ==> IsSpace(before[i])
    requires forall i :: 0 <= i < |after| ==> IsSpace(after[i])
    ensures Accept(ScanFrom(Leading, before + IntToString(n) + after)) == Some(n)
  {
    var t := IntToString(n);
    var digits := InDigits(n < 0, if n < 0 then -n else n);
    ScanSpaces(Leading, before);
    ScanAppendFrom(Leading, before, t, Leading);
    ScanIntString(n);
    ScanAppendFrom(Leading, before + t, after, digits);
    ScanSpaces(digits, after);
    AcceptDigits(ScanFrom(Leading, before + t + after), n);
  }

  /** Whitespace around a number does not change what `int(...)` reads,
      so a field written as ` 500 ` counts as 500. */
  lemma PaddedParse(before: string, n: int, after: string)
    requires forall i :: 0 <= i < |before| ==> IsSpace(before[i])
    requires forall i :: 0 <= i < |after| ==> IsSpace(after[i])
    ensures ParseInt(before + IntToString(n) + after) == Some(n)
  {
    ScanPadded(before, n, after);
  }
}
