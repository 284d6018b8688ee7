/**
 * The few Python `str` built-ins the importers and views rely on: `int()` on a
 * decimal literal, `str.split(sep)`, `str.strip()` and `str.replace(c, '')`.
 */
module Strings {
  import opened Wrappers

  predicate IsDigit(c: char) {
    '0' <= c <= '9'
  }

  /** A non-empty run of decimal digits. */
  predicate IsNumeral(s: string) {
    |s| > 0 && forall i :: 0 <= i < |s| ==> IsDigit(s[i])
  }

  /** The value of a run of decimal digits, leading zeros allowed ("0418" is 418). */
  function NumeralValue(s: string): nat
    requires forall i :: 0 <= i < |s| ==> IsDigit(s[i])
  {
    if s == [] then 0
    else
      assert IsDigit(s[|s| - 1]);
      NumeralValue(s[..|s| - 1]) * 10 + (s[|s| - 1] as int - '0' as int)
  }

  /** The literals `int()` accepts here: an optional sign, then decimal digits. */
  predicate IsIntLiteral(s: string) {
    IsNumeral(s) || (|s| > 1 && (s[0] == '+' || s[0] == '-') && IsNumeral(s[1..]))
  }

  /** Python's `int(s)`; `None` stands for the ValueError it raises. */
  function ParseInt(s: string): (r: Option<int>)
    ensures r.Some? <==> IsIntLiteral(s)
    ensures r.Some? && IsNumeral(s) ==> r.value >= 0
    ensures r.Some? && |s| > 1 && s[0] == '-' ==> r.value <= 0
  {
    if IsNumeral(s) then Some(NumeralValue(s) as int)
    else if |s| > 1 && s[0] == '+' && IsNumeral(s[1..]) then Some(NumeralValue(s[1..]) as int)
    else if |s| > 1 && s[0] == '-' && IsNumeral(s[1..]) then Some(-(NumeralValue(s[1..]) as int))
    else None
  }

  function DigitChar(d: nat): (c: char)
    requires d < 10
    ensures IsDigit(c) && c as int - '0' as int == d
  {
    ('0' as int + d) as char
  }

  /** `str(n)` for a natural number: the shortest decimal numeral of `n`. */
  function DecimalString(n: nat): (s: string)
    ensures IsNumeral(s) && NumeralValue(s) == n
    ensures |s| > 1 ==> s[0] != '0'
  {
    if n < 10 then [DigitChar(n)]
    else
      var prefix := DecimalString(n / 10);
      var s := prefix + [DigitChar(n % 10)];
      assert s[..|s| - 1] == prefix;
      s
  }

  /** `int()` reads back what `str()` writes, for every integer. */
  lemma {:induction false} ParseIntOfDecimal(n: int)
    ensures n >= 0 ==> ParseInt(DecimalString(n)) == Some(n)
    ensures n < 0 ==> ParseInt("-" + DecimalString(-n)) == Some(n)
  {
    if n < 0 {
      var s := "-" + DecimalString(-n);
      assert s[1..] == DecimalString(-n);
      assert !IsNumeral(s) by { assert !IsDigit(s[0]); }
    }
  }

  /** Number of occurrences of `c` in `s`. */
  function Count(s: string, c: char): nat {
    if s == [] then 0 else (if s[0] == c then 1 else 0) + Count(s[1..], c)
  }

  lemma {:induction false} CountAbsent(s: string, c: char)
    requires c !in s
    ensures Count(s, c) == 0
  {
    if s != [] {
      assert c !in s[1..];
      CountAbsent(s[1..], c);
    }
  }

  /** `sep.join(parts)`. */
  function Join(parts: seq<string>, sep: char): string {
    if parts == [] then ""
    else if |parts| == 1 then parts[0]
    else parts[0] + [sep] + Join(parts[1..], sep)
  }

  /**
   * `s.split(sep)` with a one-character separator: the pieces between
   * separators, empty pieces included, so there is always one more piece than
   * there are separators, and joining the pieces gives `s` back.
   */
  function Split(s: string, sep: char): (parts: seq<string>)
    ensures |parts| == Count(s, sep) + 1
    ensures forall i :: 0 <= i < |parts| ==> sep !in parts[i]
    ensures Join(parts, sep) == s
    decreases |s|
  {
    if s == [] then [""]
    else
      var rest := Split(s[1..], sep);
      if s[0] == sep then
        assert Join([""] + rest, sep) == [sep] + Join(rest, sep) by {
          assert ([""] + rest)[1..] == rest;
        }
        [""] + rest
      else
        var parts := [[s[0]] + rest[0]] + rest[1..];
        assert Join(parts, sep) == [s[0]] + Join(rest, sep) by {
          if |rest| > 1 {
            assert parts[1..] == rest[1..];
            assert Join(rest, sep) == rest[0] + [sep] + Join(rest[1..], sep);
          }
        }
        assert forall i :: 1 <= i < |parts| ==> parts[i] == rest[i];
        parts
  }

  /** A separator-free string is a single piece. */
  lemma {:induction false} SplitSeparatorFree(p: string, sep: char)
    requires sep !in p
    ensures Split(p, sep) == [p]
    decreases |p|
  {
    if p != [] {
      assert sep !in p[1..];
      SplitSeparatorFree(p[1..], sep);
      assert [p[0]] + p[1..] == p;
    }
  }

  /** A separator-free prefix followed by the separator becomes its own piece. */
  lemma {:induction false} SplitPiece(p: string, rest: string, sep: char)
    requires sep !in p
    ensures Split(p + [sep] + rest, sep) == [p] + Split(rest, sep)
    decreases |p|
  {
    var s := p + [sep] + rest;
    if p == [] {
      assert s == [sep] + rest;
      assert s[1..] == rest;
    } else {
      assert sep !in p[1..];
      assert s[0] == p[0] && s[0] != sep;
      assert s[1..] == p[1..] + [sep] + rest;
      SplitPiece(p[1..], rest, sep);
      var r := Split(s[1..], sep);
      assert r == [p[1..]] + Split(rest, sep);
      assert r[0] == p[1..] && r[1..] == Split(rest, sep);
      assert Split(s, sep) == [[s[0]] + r[0]] + r[1..];
      assert [s[0]] + r[0] == p;
    }
  }

  /** `split` undoes `join` on separator-free pieces. */
  lemma {:induction false} SplitJoin(parts: seq<string>, sep: char)
    requires |parts| >= 1
    requires forall i :: 0 <= i < |parts| ==> sep !in parts[i]
    ensures Split(Join(parts, sep), sep) == parts
  {
    if |parts| == 1 {
      SplitSeparatorFree(parts[0], sep);
    } else {
      SplitJoin(parts[1..], sep);
      SplitPiece(parts[0], Join(parts[1..], sep), sep);
      assert [parts[0]] + parts[1..] == parts;
    }
  }

  /** The characters Python's `str.isspace()` accepts, which `strip()` removes. */
  predicate IsSpace(c: char) {
    var n := c as int;
    n == 0x20 || 0x09 <= n <= 0x0d || 0x1c <= n <= 0x1f || n == 0x85 || n == 0xa0 ||
    n == 0x1680 || 0x2000 <= n <= 0x200a || n == 0x2028 || n == 0x2029 || n == 0x202f ||
    n == 0x205f || n == 0x3000
  }

  predicate AllSpace(s: string) {
    forall i :: 0 <= i < |s| ==> IsSpace(s[i])
  }

  /** A string with no surrounding whitespace. */
  predicate IsTrimmed(s: string) {
    s == [] || (!IsSpace(s[0]) && !IsSpace(s[|s| - 1]))
  }

  function StripStart(s: string): (r: string)
    ensures r == [] || !IsSpace(r[0])
  {
    if s != [] && IsSpace(s[0]) then StripStart(s[1..]) else s
  }

  function StripEnd(s: string): (r: string)
    ensures r == [] || !IsSpace(r[|r| - 1])
  {
    if s != [] && IsSpace(s[|s| - 1]) then StripEnd(s[..|s| - 1]) else s
  }

  lemma {:induction false} StripEndKeepsStart(s: string)
    requires s == [] || !IsSpace(s[0])
    ensures StripEnd(s) == [] || !IsSpace(StripEnd(s)[0])
    ensures StripEnd(s) == [] || StripEnd(s)[0] == s[0]
  {
    if s != [] && IsSpace(s[|s| - 1]) {
      if |s| > 1 {
        StripEndKeepsStart(s[..|s| - 1]);
      }
    }
  }

  /** `s.strip()`: drop leading and trailing whitespace. */
  function Strip(s: string): (r: string)
    ensures IsTrimmed(r)
  {
    StripEndKeepsStart(StripStart(s));
    StripEnd(StripStart(s))
  }

  lemma {:induction false} StripStartPadded(lead: string, s: string)
    requires AllSpace(lead)
    requires s == [] || !IsSpace(s[0])
    ensures StripStart(lead + s) == s
    decreases |lead|
  {
    if lead != [] {
      assert (lead + s)[1..] == lead[1..] + s;
      StripStartPadded(lead[1..], s);
    } else {
      assert lead + s == s;
    }
  }

  lemma {:induction false} StripEndPadded(s: string, trail: string)
    requires AllSpace(trail)
    requires s == [] || !IsSpace(s[|s| - 1])
    ensures StripEnd(s + trail) == s
    decreases |trail|
  {
    if trail != [] {
      var t := trail[..|trail| - 1];
      assert (s + trail)[..|s + trail| - 1] == s + t;
      StripEndPadded(s, t);
    } else {
      assert s + trail == s;
    }
  }

  /** `strip()` recovers a trimmed string from any whitespace padding around it. */
  lemma StripPadded(lead: string, s: string, trail: string)
    requires AllSpace(lead) && AllSpace(trail) && IsTrimmed(s)
    ensures Strip(lead + s + trail) == s
  {
    if s == [] {
      assert lead + s + trail == lead + trail;
      StripStartPadded(lead + trail, []);
      assert lead + trail + [] == lead + trail;
      assert StripStart(lead + trail) == [];
    } else {
      assert lead + s + trail == lead + (s + trail);
      StripStartPadded(lead, s + trail);
      StripEndPadded(s, trail);
    }
  }

  /** `s.replace(c, '')`: every occurrence of `c` removed, the rest kept in order. */
  function Without(s: string, c: char): (r: string)
    ensures c !in r
  {
    if s == [] then [] else (if s[0] == c then [] else [s[0]]) + Without(s[1..], c)
  }

  /** On a single character, `replace` keeps it unless it is the one removed. */
  lemma WithoutChar(x: char, c: char)
    ensures Without([x], c) == if x == c then [] else [x]
  {
    assert [x][1..] == [];
  }

  lemma {:induction false} WithoutAppend(a: string, b: string, c: char)
    ensures Without(a + b, c) == Without(a, c) + Without(b, c)
  {
    if a != [] {
      assert (a + b)[1..] == a[1..] + b;
      WithoutAppend(a[1..], b, c);
    } else {
      assert a + b == b;
    }
  }

  lemma {:induction false} WithoutAbsent(s: string, c: char)
    requires c !in s
    ensures Without(s, c) == s
  {
    if s != [] {
      assert c !in s[1..];
      WithoutAbsent(s[1..], c);
    }
  }

  /** Removing one character leaves the count of any other unchanged. */
  lemma {:induction false} CountWithout(s: string, c: char, d: char)
    requires c != d
    ensures Count(Without(s, c), d) == Count(s, d)
  {
    if s != [] {
      CountWithout(s[1..], c, d);
      CountAppend((if s[0] == c then [] else [s[0]]), Without(s[1..], c), d);
    }
  }

  lemma {:induction false} CountAppend(a: string, b: string, c: char)
    ensures Count(a + b, c) == Count(a, c) + Count(b, c)
  {
    if a != [] {
      assert (a + b)[1..] == a[1..] + b;
      CountAppend(a[1..], b, c);
    } else {
      assert a + b == b;
    }
  }
}
