/**
 * The Ruby String and Integer built-ins the tool's decisions depend on:
 * `split` with no pattern (awk-style fields), `split("\n")`, `split(":", 2)`,
 * `gsub` with a literal pattern, `String#to_i` and `Integer#to_s`.
 * Strings are sequences of characters; no encoding is modelled.
 */
module RubyText {

  /** The ASCII whitespace that `split` with no pattern and `to_i` skip. */
  predicate IsSpace(c: char) {
    c == ' ' || c == '\t' || c == '\n' || c == '\U{000B}' || c == '\U{000C}' || c == '\r'
  }

  /** One field of an awk-style split: non-empty and free of whitespace. */
  predicate IsWord(w: string) {
    w != [] && forall i :: 0 <= i < |w| ==> !IsSpace(w[i])
  }

  function SkipSpaces(s: string): (r: string)
    ensures |r| <= |s| && r == s[|s| - |r|..]
    ensures r == [] || !IsSpace(r[0])
    ensures forall i :: 0 <= i < |s| - |r| ==> IsSpace(s[i])
  {
    if s != [] && IsSpace(s[0]) then SkipSpaces(s[1..]) else s
  }

  /** Length of the run of non-whitespace characters at the head of `s`. */
  function WordLength(s: string): (n: nat)
    ensures n <= |s|
    ensures forall i :: 0 <= i < n ==> !IsSpace(s[i])
    ensures n < |s| ==> IsSpace(s[n])
  {
    if s == [] || IsSpace(s[0]) then 0 else 1 + WordLength(s[1..])
  }

  /** Text made of whitespace only, the empty text included. */
  predicate IsBlank(s: string) {
    forall i :: 0 <= i < |s| ==> IsSpace(s[i])
  }

  /** What separates two fields: at least one whitespace character. */
  predicate IsGap(s: string) {
    s != [] && IsBlank(s)
  }

  /** `s.split`: the maximal runs of non-whitespace, in order; leading and trailing whitespace yield nothing. */
  function Fields(s: string): (r: seq<string>)
    ensures forall i :: 0 <= i < |r| ==> IsWord(r[i])
    decreases |s|
  {
    var t := SkipSpaces(s);
    if t == [] then []
    else
      var n := WordLength(t);
      assert !IsSpace(t[0]) && n > 0;
      var word, fields := t[..n], Fields(t[n..]);
      WordsThen(word, fields);
      [word] + fields
  }

  lemma WordsThen(w: string, ws: seq<string>)
    requires IsWord(w) && forall i :: 0 <= i < |ws| ==> IsWord(ws[i])
    ensures forall i :: 0 <= i < |[w] + ws| ==> IsWord(([w] + ws)[i])
  {
  }

  /** `words.join(" ")`. */
  function Unwords(ws: seq<string>): string {
    if ws == [] then [] else if |ws| == 1 then ws[0] else ws[0] + " " + Unwords(ws[1..])
  }

  lemma {:induction false} WordLengthOfWord(w: string, rest: string)
    requires IsWord(w)
    requires rest == [] || IsSpace(rest[0])
    ensures WordLength(w + rest) == |w|
  {
    assert (w + rest)[0] == w[0];
    if |w| > 1 {
      assert (w + rest)[1..] == w[1..] + rest;
      WordLengthOfWord(w[1..], rest);
    } else {
      assert (w + rest)[1..] == rest;
    }
  }

  lemma FieldsAfterSpace(u: string)
    ensures Fields(" " + u) == Fields(u)
  {
    assert (" " + u)[1..] == u;
    assert SkipSpaces(" " + u) == SkipSpaces(u);
  }

  /** A text has no field exactly when it is all whitespace. */
  lemma NoFieldsIffBlank(s: string)
    ensures Fields(s) == [] <==> IsBlank(s)
  {
    var t := SkipSpaces(s);
    if t != [] {
      assert s[|s| - |t|] == t[0];
    }
  }

  /** Whitespace in front of a text adds no field. */
  lemma {:induction false} FieldsAfterBlank(b: string, u: string)
    requires IsBlank(b)
    ensures Fields(b + u) == Fields(u)
  {
    SkipSpacesAfterBlank(b, u);
  }

  lemma {:induction false} SkipSpacesAfterBlank(b: string, u: string)
    requires IsBlank(b)
    ensures SkipSpaces(b + u) == SkipSpaces(u)
  {
    if b != [] {
      assert (b + u)[0] == b[0];
      assert (b + u)[1..] == b[1..] + u;
      SkipSpacesAfterBlank(b[1..], u);
    } else {
      assert b + u == u;
    }
  }

  /** A word followed by nothing or by whitespace is the first field. */
  lemma FieldsOfWordThen(w: string, rest: string)
    requires IsWord(w)
    requires rest == [] || IsSpace(rest[0])
    ensures Fields(w + rest) == [w] + Fields(rest)
  {
    assert (w + rest)[0] == w[0];
    assert SkipSpaces(w + rest) == w + rest;
    WordLengthOfWord(w, rest);
    assert (w + rest)[..|w|] == w;
    assert (w + rest)[|w|..] == rest;
  }

  /** Words with `gaps[k]` between word `k` and word `k + 1`: a line of fields as any program may print it. */
  function Joined(ws: seq<string>, gaps: seq<string>): string
    requires |ws| == |gaps| + 1
    decreases |gaps|
  {
    if gaps == [] then ws[0] else ws[0] + gaps[0] + Joined(ws[1..], gaps[1..])
  }

  /** Splitting words separated by any whitespace, and surrounded by any, gives the words back. */
  lemma FieldsOfJoined(ws: seq<string>, gaps: seq<string>, lead: string, trail: string)
    requires |ws| == |gaps| + 1
    requires forall i :: 0 <= i < |ws| ==> IsWord(ws[i])
    requires forall i :: 0 <= i < |gaps| ==> IsGap(gaps[i])
    requires IsBlank(lead) && IsBlank(trail)
    ensures Fields(lead + Joined(ws, gaps) + trail) == ws
  {
    assert lead + Joined(ws, gaps) + trail == lead + (Joined(ws, gaps) + trail);
    FieldsAfterBlank(lead, Joined(ws, gaps) + trail);
    SeparatedOfAll(ws, gaps);
    FieldsOfJoinedThen(ws, gaps, trail);
  }

  /** A word, then a gap, then more text: the word is the first field and the gap adds none. */
  lemma FieldsOfWordGap(w: string, gap: string, rest: string)
    requires IsWord(w) && IsGap(gap)
    ensures Fields(w + (gap + rest)) == [w] + Fields(rest)
  {
    assert (gap + rest)[0] == gap[0];
    FieldsOfWordThen(w, gap + rest);
    FieldsAfterBlank(gap, rest);
  }

  lemma JoinedThen(ws: seq<string>, gaps: seq<string>, trail: string)
    requires |ws| == |gaps| + 1 && gaps != []
    ensures Joined(ws, gaps) + trail == ws[0] + (gaps[0] + (Joined(ws[1..], gaps[1..]) + trail))
  {
  }

  lemma HeadAndTail<T>(s: seq<T>)
    requires s != []
    ensures [s[0]] + s[1..] == s
  {
  }

  /** When the rest of a joined line splits into the remaining words, the whole line splits into all of them. */
  lemma FieldsOfJoinedStep(ws: seq<string>, gaps: seq<string>, trail: string)
    requires |ws| == |gaps| + 1 && gaps != []
    requires IsWord(ws[0]) && IsGap(gaps[0])
    requires Fields(Joined(ws[1..], gaps[1..]) + trail) == ws[1..]
    ensures Fields(Joined(ws, gaps) + trail) == ws
  {
    var rest := Joined(ws[1..], gaps[1..]) + trail;
    JoinedThen(ws, gaps, trail);
    FieldsOfWordGap(ws[0], gaps[0], rest);
    HeadAndTail(ws);
  }

  /** A word followed by whitespace only is the only field. */
  lemma FieldsOfLastWord(w: string, trail: string)
    requires IsWord(w) && IsBlank(trail)
    ensures Fields(w + trail) == [w]
  {
    FieldsOfWordThen(w, trail);
  }

  /** Every word of `ws` is a field and every gap is whitespace, stated one element at a time. */
  predicate Separated(ws: seq<string>, gaps: seq<string>)
    requires |ws| == |gaps| + 1
    decreases |gaps|
  {
    IsWord(ws[0]) && (gaps != [] ==> IsGap(gaps[0]) && Separated(ws[1..], gaps[1..]))
  }

  lemma {:induction false} SeparatedOfAll(ws: seq<string>, gaps: seq<string>)
    requires |ws| == |gaps| + 1
    requires forall i :: 0 <= i < |ws| ==> IsWord(ws[i])
    requires forall i :: 0 <= i < |gaps| ==> IsGap(gaps[i])
    ensures Separated(ws, gaps)
    decreases |gaps|
  {
    if gaps != [] {
      assert forall i :: 0 <= i < |ws| - 1 ==> ws[1..][i] == ws[i + 1];
      assert forall i :: 0 <= i < |gaps| - 1 ==> gaps[1..][i] == gaps[i + 1];
      SeparatedOfAll(ws[1..], gaps[1..]);
    }
  }

  lemma {:induction false} FieldsOfJoinedThen(ws: seq<string>, gaps: seq<string>, trail: string)
    requires |ws| == |gaps| + 1
    requires Separated(ws, gaps)
    requires IsBlank(trail)
    ensures Fields(Joined(ws, gaps) + trail) == ws
    decreases |gaps|
  {
    if gaps == [] {
      FieldsOfLastWord(ws[0], trail);
    } else {
      FieldsOfJoinedThen(ws[1..], gaps[1..], trail);
      FieldsOfJoinedStep(ws, gaps, trail);
    }
  }

  /** Splitting words that were joined by single spaces gives the words back. */
  lemma {:induction false} FieldsOfUnwords(ws: seq<string>)
    requires forall i :: 0 <= i < |ws| ==> IsWord(ws[i])
    ensures Fields(Unwords(ws)) == ws
  {
    if ws != [] {
      var w := ws[0];
      var rest := if |ws| == 1 then [] else " " + Unwords(ws[1..]);
      assert Unwords(ws) == w + rest;
      FieldsOfWordThen(w, rest);
      if |ws| == 1 {
        assert Fields(rest) == [];
      } else {
        FieldsOfUnwords(ws[1..]);
        FieldsAfterSpace(Unwords(ws[1..]));
        assert Fields(rest) == ws[1..];
      }
      HeadAndTail(ws);
    }
  }

  /** The pieces of `s` between occurrences of `c`, empty pieces included. */
  function Pieces(s: string, c: char): (r: seq<string>)
    ensures |r| >= 1
    ensures forall i :: 0 <= i < |r| ==> c !in r[i]
  {
    if s == [] then [[]]
    else
      var rest := Pieces(s[1..], c);
      if s[0] == c then [[]] + rest else [[s[0]] + rest[0]] + rest[1..]
  }

  function DropTrailingEmpty(ps: seq<string>): (r: seq<string>)
    ensures r <= ps
    ensures r == [] || r[|r| - 1] != []
    ensures forall i :: |r| <= i < |ps| ==> ps[i] == []
  {
    if ps == [] then []
    else if ps[|ps| - 1] == [] then DropTrailingEmpty(ps[..|ps| - 1])
    else ps
  }

  /** `s.split("\n")`: the lines of `s`, with trailing empty lines dropped. */
  function Lines(s: string): (r: seq<string>)
    ensures forall i :: 0 <= i < |r| ==> '\n' !in r[i]
    ensures r == [] || r[|r| - 1] != []
  {
    DropTrailingEmpty(Pieces(s, '\n'))
  }

  /** `lines.join("\n")`. */
  function Unlines(ls: seq<string>): string {
    if ls == [] then [] else if |ls| == 1 then ls[0] else ls[0] + "\n" + Unlines(ls[1..])
  }

  lemma {:induction false} PiecesOfPlain(a: string, c: char)
    requires c !in a
    ensures Pieces(a, c) == [a]
  {
    if a != [] {
      assert a[0] != c;
      PiecesOfPlain(a[1..], c);
      assert [a[0]] + a[1..] == a;
    }
  }

  lemma {:induction false} PiecesAround(a: string, b: string, c: char)
    requires c !in a
    ensures Pieces(a + [c] + b, c) == [a] + Pieces(b, c)
  {
    var s := a + [c] + b;
    if a == [] {
      assert s[0] == c && s[1..] == b;
    } else {
      assert s[0] == a[0] && a[0] != c;
      assert s[1..] == a[1..] + [c] + b;
      PiecesAround(a[1..], b, c);
      assert [a[0]] + a[1..] == a;
    }
  }

  lemma {:induction false} PiecesOfUnlines(ls: seq<string>)
    requires |ls| >= 1
    requires forall i :: 0 <= i < |ls| ==> '\n' !in ls[i]
    ensures Pieces(Unlines(ls), '\n') == ls
    ensures Pieces(Unlines(ls) + "\n", '\n') == ls + [[]]
  {
    if |ls| == 1 {
      PiecesOfPlain(ls[0], '\n');
      assert ls[0] + "\n" == ls[0] + ['\n'] + [];
      PiecesAround(ls[0], [], '\n');
    } else {
      var tail := Unlines(ls[1..]);
      PiecesOfUnlines(ls[1..]);
      assert Unlines(ls) == ls[0] + ['\n'] + tail;
      PiecesAround(ls[0], tail, '\n');
      assert Unlines(ls) + "\n" == ls[0] + ['\n'] + (tail + "\n");
      PiecesAround(ls[0], tail + "\n", '\n');
    }
  }

  lemma DropTrailingEmptyKeeps(ls: seq<string>)
    requires ls == [] || ls[|ls| - 1] != []
    ensures DropTrailingEmpty(ls) == ls
    ensures DropTrailingEmpty(ls + [[]]) == ls
  {
    var padded := ls + [[]];
    assert padded[|padded| - 1] == [];
    assert padded[..|padded| - 1] == ls;
  }

  lemma LinesOfNewline()
    ensures Lines([]) == [] && Lines("\n") == []
  {
    assert "\n"[1..] == [];
    assert Pieces("\n", '\n') == [[]] + [[]];
  }

  /** Lines joined by newlines split back into the same lines. */
  lemma LinesOfUnlines(ls: seq<string>)
    requires forall i :: 0 <= i < |ls| ==> '\n' !in ls[i]
    requires ls == [] || ls[|ls| - 1] != []
    ensures Lines(Unlines(ls)) == ls
  {
    if ls == [] {
      LinesOfNewline();
    } else {
      DropTrailingEmptyKeeps(ls);
      PiecesOfUnlines(ls);
    }
  }

  /** The same holds when the text ends with a newline, as command output does. */
  lemma LinesOfTerminatedUnlines(ls: seq<string>)
    requires forall i :: 0 <= i < |ls| ==> '\n' !in ls[i]
    requires ls == [] || ls[|ls| - 1] != []
    ensures Lines(Unlines(ls) + "\n") == ls
  {
    if ls == [] {
      LinesOfNewline();
      assert Unlines(ls) + "\n" == "\n";
    } else {
      LinesOfTerminatedLines(ls);
    }
  }

  lemma LinesOfTerminatedLines(ls: seq<string>)
    requires forall i :: 0 <= i < |ls| ==> '\n' !in ls[i]
    requires ls != [] && ls[|ls| - 1] != []
    ensures Lines(Unlines(ls) + "\n") == ls
  {
    DropTrailingEmptyKeeps(ls);
    PiecesOfUnlines(ls);
  }

  /** Index of the first `c` in `s`. */
  function FirstIndex(s: string, c: char): (i: nat)
    requires c in s
    ensures i < |s| && s[i] == c && c !in s[..i]
  {
    if s[0] == c then 0
    else
      var j := FirstIndex(s[1..], c);
      assert s[..j + 1] == [s[0]] + s[1..][..j];
      j + 1
  }

  /** `s.split(c, 2)` for a one-character pattern: what precedes the first `c`, and the rest. */
  function SplitOnce(s: string, c: char): (r: seq<string>)
    ensures |r| <= 2
    ensures r == [] <==> s == []
    ensures |r| == 1 ==> c !in s && r[0] == s
    ensures |r| == 2 ==> c !in r[0] && r[0] + [c] + r[1] == s
  {
    if s == [] then []
    else if c in s then
      var i := FirstIndex(s, c);
      assert s[..i] + [c] + s[i + 1..] == s;
      [s[..i], s[i + 1..]]
    else [s]
  }

  lemma {:induction false} FirstIndexAfter(a: string, b: string, c: char)
    requires c !in a
    ensures c in a + [c] + b && FirstIndex(a + [c] + b, c) == |a|
  {
    var s := a + [c] + b;
    assert s[|a|] == c;
    if a != [] {
      assert s[0] == a[0];
      assert s[1..] == a[1..] + [c] + b;
      FirstIndexAfter(a[1..], b, c);
    }
  }

  /** Splitting at the first separator undoes joining with it. */
  lemma SplitOnceAtFirst(a: string, b: string, c: char)
    requires c !in a
    ensures SplitOnce(a + [c] + b, c) == [a, b]
  {
    var s := a + [c] + b;
    FirstIndexAfter(a, b, c);
    assert s[..|a|] == a;
    assert s[|a| + 1..] == b;
  }

  predicate OccursAt(s: string, p: string, i: nat) {
    i + |p| <= |s| && s[i..i + |p|] == p
  }

  ghost predicate Contains(s: string, p: string) {
    exists i: nat :: OccursAt(s, p, i)
  }

  /** `s.gsub(p, '')` for a literal, non-empty `p`: occurrences removed from left to right. */
  function RemoveAll(s: string, p: string): (r: string)
    requires p != []
    ensures |r| <= |s|
    decreases |s|
  {
    if |s| < |p| then s
    else if s[..|p|] == p then RemoveAll(s[|p|..], p)
    else [s[0]] + RemoveAll(s[1..], p)
  }

  /** Text with no occurrence of the pattern is left as it is. */
  lemma {:induction false} RemoveAllWithout(s: string, p: string)
    requires p != [] && !Contains(s, p)
    ensures RemoveAll(s, p) == s
    decreases |s|
  {
    if |s| >= |p| {
      assert !OccursAt(s, p, 0);
      assert !Contains(s[1..], p) by {
        forall i: nat | OccursAt(s[1..], p, i) ensures false {
          ShiftOccurrence(s, p, i);
        }
      }
      RemoveAllWithout(s[1..], p);
      assert [s[0]] + s[1..] == s;
    }
  }

  lemma NoOccurrenceWithoutHead(s: string, p: string)
    requires p != [] && p[0] !in s
    ensures !Contains(s, p)
  {
    forall i: nat | i + |p| <= |s|
      ensures !OccursAt(s, p, i)
    {
      assert s[i..i + |p|][0] == s[i];
    }
  }

  lemma ShiftOccurrence(x: string, p: string, i: nat)
    requires x != [] && OccursAt(x[1..], p, i)
    ensures OccursAt(x, p, i + 1)
  {
    assert x[i + 1..i + 1 + |p|] == x[1..][i..i + |p|];
  }

  lemma NoEarlyOccurrenceInTail(a: string, p: string, b: string)
    requires a != []
    requires forall i: nat :: i < |a| ==> !OccursAt(a + p + b, p, i)
    ensures forall i: nat :: i < |a| - 1 ==> !OccursAt(a[1..] + p + b, p, i)
  {
    var s := a + p + b;
    assert s[1..] == a[1..] + p + b;
    forall i: nat | i < |a| - 1 ensures !OccursAt(a[1..] + p + b, p, i) {
      if OccursAt(s[1..], p, i) {
        ShiftOccurrence(s, p, i);
      }
    }
  }

  /**
   * When the first occurrence of `p` starts right after `a`, it is removed and
   * removal carries on after it.
   */
  lemma {:induction false} RemoveAllFirst(a: string, p: string, b: string)
    requires p != []
    requires forall i: nat :: i < |a| ==> !OccursAt(a + p + b, p, i)
    ensures RemoveAll(a + p + b, p) == a + RemoveAll(b, p)
  {
    var s := a + p + b;
    if a == [] {
      assert s[..|p|] == p && s[|p|..] == b;
    } else {
      assert !OccursAt(s, p, 0);
      assert s[..|p|] != p;
      assert RemoveAll(s, p) == [s[0]] + RemoveAll(s[1..], p);
      assert s[1..] == a[1..] + p + b;
      NoEarlyOccurrenceInTail(a, p, b);
      RemoveAllFirst(a[1..], p, b);
      assert [s[0]] + a[1..] == a;
    }
  }

  predicate IsDigit(c: char) {
    '0' <= c <= '9'
  }

  predicate AllDigits(s: string) {
    forall i :: 0 <= i < |s| ==> IsDigit(s[i])
  }

  function DigitValue(c: char): nat
    requires IsDigit(c)
  {
    (c as int) - ('0' as int)
  }

  function DigitChar(d: nat): char
    requires d < 10
  {
    (('0' as int) + d) as char
  }

  /**
   * The digits of the decimal numeral at the head of `s`: a digit, then digits
   * where a single underscore may separate two of them (and is dropped).
   */
  function NumeralDigits(s: string): (ds: string)
    ensures AllDigits(ds)
  {
    if s != [] && IsDigit(s[0]) then [s[0]] + NumeralDigits(s[1..])
    else if |s| >= 2 && s[0] == '_' && IsDigit(s[1]) then [s[1]] + NumeralDigits(s[2..])
    else []
  }

  /** The value of a string of decimal digits, most significant first. */
  function Decimal(ds: string): nat
    requires AllDigits(ds)
  {
    if ds == [] then 0 else 10 * Decimal(ds[..|ds| - 1]) + DigitValue(ds[|ds| - 1])
  }

  /** The value of the unsigned numeral at the head of `s`, 0 when there is none. */
  function Magnitude(s: string): nat {
    if s != [] && IsDigit(s[0]) then Decimal(NumeralDigits(s)) else 0
  }

  /**
   * The text after the optional base-10 prefix `0d` or `0D`. Ruby skips the
   * prefix whenever the text is longer than one character; when no digit
   * follows it, what remains has no numeral, as the unskipped text has none.
   */
  function Unprefixed(u: string): (r: string)
    ensures |u| >= 2 && u[0] == '0' && (u[1] == 'd' || u[1] == 'D') ==> r == u[2..]
    ensures !(|u| >= 2 && u[0] == '0' && (u[1] == 'd' || u[1] == 'D')) ==> r == u
  {
    if |u| >= 2 && u[0] == '0' && (u[1] == 'd' || u[1] == 'D') then u[2..] else u
  }

  /**
   * `s.to_i`: leading whitespace skipped, an optional sign, an optional `0d`
   * prefix, the numeral that follows; 0 when there is none.
   */
  function ToI(s: string): (n: int)
    ensures n < 0 ==> SkipSpaces(s) != [] && SkipSpaces(s)[0] == '-'
  {
    var t := SkipSpaces(s);
    if t != [] && t[0] == '-' then -(Magnitude(Unprefixed(t[1..])) as int)
    else if t != [] && t[0] == '+' then Magnitude(Unprefixed(t[1..]))
    else Magnitude(Unprefixed(t))
  }

  function NatToS(n: nat): (s: string)
    ensures s != [] && AllDigits(s)
  {
    if n < 10 then [DigitChar(n)] else NatToS(n / 10) + [DigitChar(n % 10)]
  }

  /** `n.to_s`: decimal, with a minus sign for negative numbers. */
  function IntToS(n: int): (s: string)
    ensures s != [] && (s[0] == '-' <==> n < 0)
    ensures AllDigits(if n < 0 then s[1..] else s)
  {
    if n < 0 then "-" + NatToS(-n) else NatToS(n)
  }

  lemma {:induction false} DecimalOfNatToS(n: nat)
    ensures Decimal(NatToS(n)) == n
  {
    var s := NatToS(n);
    if n < 10 {
      assert s[..0] == [];
    } else {
      DecimalOfNatToS(n / 10);
      assert s[..|s| - 1] == NatToS(n / 10);
      assert DigitValue(s[|s| - 1]) == n % 10;
    }
  }

  lemma {:induction false} NumeralDigitsOfDigits(ds: string)
    requires AllDigits(ds)
    ensures NumeralDigits(ds) == ds
  {
    if ds != [] {
      NumeralDigitsOfDigits(ds[1..]);
      assert [ds[0]] + ds[1..] == ds;
    }
  }

  /** `n.to_s.to_i == n`. */
  lemma ToIOfIntToS(n: int)
    ensures ToI(IntToS(n)) == n
  {
    var m: nat := if n < 0 then -n else n;
    var digits := NatToS(m);
    MagnitudeOfNatToS(m);
    assert Unprefixed(digits) == digits by {
      if |digits| >= 2 {
        assert IsDigit(digits[1]);
      }
    }
    var s := IntToS(n);
    if n < 0 {
      assert s[1..] == digits;
      ToIOfNegative(s);
    } else {
      assert IsDigit(s[0]);
      ToIOfUnsigned(s);
    }
  }


  /** A count's decimal spelling reads back as that count. */
  lemma MagnitudeOfNatToS(n: nat)
    ensures Magnitude(NatToS(n)) == n
  {
    NumeralDigitsOfDigits(NatToS(n));
    DecimalOfNatToS(n);
  }

  /** Text starting with neither whitespace nor a sign converts by its numeral, after the optional prefix. */
  lemma ToIOfUnsigned(t: string)
    requires t != [] && !IsSpace(t[0]) && t[0] != '-' && t[0] != '+'
    ensures ToI(t) == Magnitude(Unprefixed(t))
  {
    assert SkipSpaces(t) == t;
  }

  /** Text starting with a minus converts to the negated numeral that follows it, after the optional prefix. */
  lemma ToIOfNegative(t: string)
    requires t != [] && t[0] == '-'
    ensures ToI(t) == -(Magnitude(Unprefixed(t[1..])) as int)
  {
    assert SkipSpaces(t) == t;
  }

  /** The base-10 prefix: `"0d5".to_i == 5` and `"-0D5".to_i == -5`, for every count. */
  lemma ToIOfPrefixed(n: nat)
    ensures ToI("0d" + NatToS(n)) == n
    ensures ToI("-0D" + NatToS(n)) == -(n as int)
  {
    var digits := NatToS(n);
    MagnitudeOfNatToS(n);
    var positive, negative := "0d" + digits, "-0D" + digits;
    assert positive[0] == '0' && positive[1] == 'd';
    assert Unprefixed(positive) == digits;
    ToIOfUnsigned(positive);
    assert negative[0] == '-' && negative[1..] == "0D" + digits;
    assert Unprefixed("0D" + digits) == digits;
    ToIOfNegative(negative);
  }
}
