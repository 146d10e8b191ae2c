/**
 * The small pieces of C++ string and stream behaviour the tally card writers rely on:
 * `std::string::find(...) != npos`, `std::setw` with `std::left`/`std::right`,
 * `std::string::resize`, the decimal formatting of an `int` by `operator<<`, and
 * `std::endl`-terminated lines.
 */
module Text {

  /** `s.find(t) != std::string::npos`: t occurs in s at some position (the empty
      string occurs everywhere). */
  predicate Contains(s: string, t: string)
    decreases |s|
  {
    |t| <= |s| && (s[..|t|] == t || (0 < |s| && Contains(s[1..], t)))
  }

  /** Every Contains is witnessed by an occurrence at some index. */
  lemma {:induction false} ContainsHasOccurrence(s: string, t: string) returns (i: nat)
    requires Contains(s, t)
    ensures i + |t| <= |s| && s[i..i + |t|] == t
    decreases |s|
  {
    if s[..|t|] == t {
      i := 0;
    } else {
      var j := ContainsHasOccurrence(s[1..], t);
      assert s[1..][j..j + |t|] == s[j + 1..j + 1 + |t|];
      i := j + 1;
    }
  }

  /** Every occurrence of t in s makes Contains true. */
  lemma {:induction false} OccurrenceContains(s: string, t: string, i: nat)
    requires i + |t| <= |s| && s[i..i + |t|] == t
    ensures Contains(s, t)
    decreases i
  {
    if i > 0 {
      assert s[1..][i - 1..i - 1 + |t|] == s[i..i + |t|];
      OccurrenceContains(s[1..], t, i - 1);
    }
  }

  function Spaces(n: nat): (r: string)
    ensures |r| == n && forall i :: 0 <= i < n ==> r[i] == ' '
  {
    if n == 0 then [] else [' '] + Spaces(n - 1)
  }

  /** `os << std::setw(w) << std::right << s`: right-justify in a field of width w,
      padding with spaces on the left; never truncates. */
  function PadLeft(s: string, w: nat): (r: string)
    ensures |r| == if |s| < w then w else |s|
    ensures r[|r| - |s|..] == s
    ensures forall i :: 0 <= i < |r| - |s| ==> r[i] == ' '
  {
    if |s| < w then Spaces(w - |s|) + s else s
  }

  /** `os << std::setw(w) << std::left << s`: left-justify in a field of width w,
      padding with spaces on the right; never truncates. */
  function PadRight(s: string, w: nat): (r: string)
    ensures |r| == if |s| < w then w else |s|
    ensures r[..|s|] == s
    ensures forall i :: |s| <= i < |r| ==> r[i] == ' '
  {
    if |s| < w then s + Spaces(w - |s|) else s
  }

  /** `s.resize(n)`: keep the first n characters, or pad with NUL characters up to n. */
  function Resize(s: string, n: nat): (r: string)
    ensures |r| == n
    ensures |s| >= n ==> r == s[..n]
    ensures |s| < n ==> r[..|s|] == s && forall i :: |s| <= i < n ==> r[i] == '\0'
  {
    if |s| >= n then s[..n] else s + seq(n - |s|, _ => '\0')
  }

  /** Resizing twice to the same length changes nothing the second time. */
  lemma ResizeIdempotent(s: string, n: nat)
    ensures Resize(Resize(s, n), n) == Resize(s, n)
  {
  }

  predicate NoNul(s: string)
  {
    forall i :: 0 <= i < |s| ==> s[i] != '\0'
  }

  /** The C string `s.c_str()` stands for, as `std::string(const char *)` reads it back:
      the characters before the first NUL, or all of s when it holds none. */
  function CString(s: string): (r: string)
    ensures |r| <= |s| && r == s[..|r|]
    ensures NoNul(r)
    ensures |r| < |s| ==> s[|r|] == '\0'
  {
    if s == [] || s[0] == '\0' then [] else [s[0]] + CString(s[1..])
  }

  /** Text ended by a NUL, or by nothing, reads back as the text before it. */
  lemma {:induction false} CStringAppendNul(s: string, rest: string)
    requires NoNul(s) && (rest == [] || rest[0] == '\0')
    ensures CString(s + rest) == s
  {
    if s != [] {
      assert (s + rest)[1..] == s[1..] + rest;
      CStringAppendNul(s[1..], rest);
    } else {
      assert s + rest == rest;
    }
  }

  /** A string without NUL passes through a C string unchanged, and a C string read
      back and passed on again stays the same. */
  lemma CStringOfNoNul(s: string)
    requires NoNul(s)
    ensures CString(s) == s
  {
    CStringAppendNul(s, []);
    assert s + [] == s;
  }

  lemma CStringIdempotent(s: string)
    ensures CString(CString(s)) == CString(s)
  {
    CStringOfNoNul(CString(s));
  }

  /** A name without NUL resized to n and then read as a C string is the name itself
      when it is at most n long, and its first n characters otherwise: the NUL padding
      of resize is lost. */
  lemma ResizeThenCString(s: string, n: nat)
    requires NoNul(s)
    ensures CString(Resize(s, n)) == if |s| <= n then s else s[..n]
  {
    if |s| >= n {
      CStringOfNoNul(s[..n]);
    } else {
      CStringAppendNul(s, seq(n - |s|, _ => '\0'));
    }
  }

  function DigitChar(d: nat): (c: char)
    requires d < 10
    ensures '0' <= c <= '9' && c as int - '0' as int == d
  {
    ('0' as int + d) as char
  }

  /** Decimal digits of n, most significant first, as `operator<<` writes them. */
  function NatToString(n: nat): (r: string)
    ensures |r| >= 1
    ensures forall i :: 0 <= i < |r| ==> '0' <= r[i] <= '9'
  {
    if n < 10 then [DigitChar(n)] else NatToString(n / 10) + [DigitChar(n % 10)]
  }

  /** `os << i` for an integer: a minus sign for negative values, then the digits. */
  function IntToString(i: int): (r: string)
    ensures |r| >= 1
    ensures forall k :: 0 <= k < |r| ==> r[k] == '-' || '0' <= r[k] <= '9'
  {
    if i < 0 then "-" + NatToString(-i) else NatToString(i)
  }

  /** The value of a string of decimal digits (the reading direction of NatToString). */
  function DigitsValue(s: string): int
  {
    if s == [] then 0 else DigitsValue(s[..|s| - 1]) * 10 + (s[|s| - 1] as int - '0' as int)
  }

  /** The value of a decimal string with an optional leading minus sign. */
  function DecimalValue(s: string): int
  {
    if |s| > 0 && s[0] == '-' then -DigitsValue(s[1..]) else DigitsValue(s)
  }

  lemma {:induction false} NatToStringRoundTrip(n: nat)
    ensures DigitsValue(NatToString(n)) == n
  {
    if n >= 10 {
      NatToStringRoundTrip(n / 10);
      var r := NatToString(n);
      assert r[..|r| - 1] == NatToString(n / 10);
    }
  }

  /** Formatting an integer and reading it back gives the same integer. */
  lemma IntToStringRoundTrip(i: int)
    ensures DecimalValue(IntToString(i)) == i
  {
    if i < 0 {
      NatToStringRoundTrip(-i);
      assert IntToString(i)[1..] == NatToString(-i);
    } else {
      NatToStringRoundTrip(i);
    }
  }

  /** Text made of lines each ended by `std::endl`. */
  function JoinLines(lines: seq<string>): (r: string)
  {
    if lines == [] then "" else lines[0] + "\n" + JoinLines(lines[1..])
  }

  /** Index of the first newline in s, or |s| when there is none. */
  function LineEnd(s: string): (k: nat)
    ensures k <= |s|
    ensures forall i :: 0 <= i < k ==> s[i] != '\n'
    ensures k < |s| ==> s[k] == '\n'
  {
    if s == [] || s[0] == '\n' then 0 else 1 + LineEnd(s[1..])
  }

  /** Cuts text into its lines; a final line without a newline is kept as it is. */
  function SplitLines(s: string): seq<string>
    decreases |s|
  {
    if s == [] then []
    else
      var k := LineEnd(s);
      if k < |s| then [s[..k]] + SplitLines(s[k + 1..]) else [s]
  }

  predicate NoNewline(s: string)
  {
    forall i :: 0 <= i < |s| ==> s[i] != '\n'
  }

  lemma {:induction false} LineEndOfLine(line: string, rest: string)
    requires NoNewline(line)
    ensures LineEnd(line + "\n" + rest) == |line|
    decreases |line|
  {
    if line != [] {
      assert (line + "\n" + rest)[1..] == line[1..] + "\n" + rest;
      LineEndOfLine(line[1..], rest);
    }
  }

  /** Lines written with `std::endl` can be recovered exactly from the text, as long as
      none of them holds a newline of its own. */
  lemma {:induction false} SplitJoinLines(lines: seq<string>)
    requires forall j :: 0 <= j < |lines| ==> NoNewline(lines[j])
    ensures SplitLines(JoinLines(lines)) == lines
  {
    if lines != [] {
      var s := JoinLines(lines);
      var rest := JoinLines(lines[1..]);
      assert s == lines[0] + "\n" + rest;
      LineEndOfLine(lines[0], rest);
      assert s[..|lines[0]|] == lines[0];
      assert s[|lines[0]| + 1..] == rest;
      SplitJoinLines(lines[1..]);
      assert [lines[0]] + lines[1..] == lines;
    }
  }

  /** A card of FLUKA's fixed input format: seven ten-column fields (the keyword and
      WHAT(1) to WHAT(6)) followed by the SDUM field. */
  function Card(f0: string, f1: string, f2: string, f3: string, f4: string, f5: string,
                f6: string, sdum: string): string
  {
    f0 + f1 + f2 + f3 + f4 + f5 + f6 + sdum
  }

  /** When the seven fields are ten columns wide, field k occupies columns
      [10k, 10k + 10) of the card and SDUM starts at column 70. */
  lemma CardLayout(f0: string, f1: string, f2: string, f3: string, f4: string, f5: string,
                   f6: string, sdum: string)
    requires |f0| == 10 && |f1| == 10 && |f2| == 10 && |f3| == 10
    requires |f4| == 10 && |f5| == 10 && |f6| == 10
    ensures var c := Card(f0, f1, f2, f3, f4, f5, f6, sdum);
      && |c| == 70 + |sdum|
      && c[0..10] == f0 && c[10..20] == f1 && c[20..30] == f2 && c[30..40] == f3
      && c[40..50] == f4 && c[50..60] == f5 && c[60..70] == f6 && c[70..] == sdum
  {
  }

  lemma JoinLinesOne(a: string)
    ensures JoinLines([a]) == a + "\n"
  {
    assert [a][1..] == [];
  }

  lemma JoinLinesTwo(a: string, b: string)
    ensures JoinLines([a, b]) == a + "\n" + b + "\n"
  {
    assert [a, b][1..] == [b];
    JoinLinesOne(b);
  }

  lemma JoinLinesThree(a: string, b: string, c: string)
    ensures JoinLines([a, b, c]) == a + "\n" + b + "\n" + c + "\n"
  {
    assert [a, b, c][1..] == [b, c];
    JoinLinesTwo(b, c);
  }
}
