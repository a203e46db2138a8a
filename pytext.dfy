/**
 * The few Python string built-ins the modelled code relies on: `str.split()`
 * with no separator, `str.join`, `in` on strings, `str.isdigit`, `int(...)`,
 * `str(int)`, `str(bool)` and `str.replace`.
 */
module PyText {
  import opened Wrappers

  /**
   * The characters Python's `str.isspace()` accepts, which `str.split()`
   * and `str.strip()` with no argument remove: the ASCII tab, line feed,
   * vertical tab, form feed, carriage return, the four separators 0x1C-0x1F
   * and the space, and the Unicode spaces and line and paragraph separators.
   */
  predicate IsSpace(c: char) {
    ('\U{09}' <= c <= '\U{0D}') || ('\U{1C}' <= c <= '\U{20}') || c == '\U{85}' || c == '\U{A0}'
    || c == '\U{1680}' || ('\U{2000}' <= c <= '\U{200A}') || c == '\U{2028}' || c == '\U{2029}'
    || c == '\U{202F}' || c == '\U{205F}' || c == '\U{3000}'
  }

  /** A non-empty run of characters none of which is whitespace. */
  predicate IsWord(w: string) {
    |w| > 0 && forall i :: 0 <= i < |w| ==> !IsSpace(w[i])
  }

  function DropSpaces(s: string): (r: string)
    ensures |r| <= |s| && r == s[|s| - |r|..]
    ensures r == [] || !IsSpace(r[0])
  {
    if s != [] && IsSpace(s[0]) then DropSpaces(s[1..]) else s
  }

  /** The longest prefix of `s` that holds no whitespace. */
  function TakeWord(s: string): (r: string)
    ensures |r| <= |s|
    ensures s != [] && !IsSpace(s[0]) ==> |r| > 0
  {
    if s == [] || IsSpace(s[0]) then [] else [s[0]] + TakeWord(s[1..])
  }

  /** Python's `s.split()`: the maximal whitespace-free runs of `s`, in order. */
  function Split(s: string): (r: seq<string>)
    decreases |s|
  {
    var t := DropSpaces(s);
    if t == [] then []
    else
      var w := TakeWord(t);
      [w] + Split(t[|w|..])
  }

  /** Python's `sep.join(parts)`. */
  function Join(sep: string, parts: seq<string>): string {
    if |parts| == 0 then ""
    else if |parts| == 1 then parts[0]
    else parts[0] + sep + Join(sep, parts[1..])
  }

  lemma TakeWordOfWordThenSpace(w: string, rest: string)
    requires IsWord(w)
    ensures TakeWord(w + " " + rest) == w
    decreases |w|
  {
    if |w| > 1 {
      assert (w + " " + rest)[1..] == w[1..] + " " + rest;
      TakeWordOfWordThenSpace(w[1..], rest);
    } else {
      assert (w + " " + rest)[1..] == " " + rest;
    }
  }

  lemma TakeWordOfWord(w: string)
    requires IsWord(w)
    ensures TakeWord(w) == w
    decreases |w|
  {
    if |w| > 1 {
      TakeWordOfWord(w[1..]);
    }
  }

  lemma SplitSpacePrefix(x: string)
    ensures Split(" " + x) == Split(x)
  {
    assert (" " + x)[1..] == x;
    assert DropSpaces(" " + x) == DropSpaces(x);
  }

  lemma SplitNonSpace(s: string)
    requires s != [] && !IsSpace(s[0])
    ensures Split(s) == [TakeWord(s)] + Split(s[|TakeWord(s)|..])
  {
    assert DropSpaces(s) == s;
  }

  lemma SplitWordThenSpace(w: string, rest: string)
    requires IsWord(w)
    ensures Split(w + " " + rest) == [w] + Split(" " + rest)
  {
    var s := w + " " + rest;
    assert s[0] == w[0];
    SplitNonSpace(s);
    TakeWordOfWordThenSpace(w, rest);
    assert s[|w|..] == " " + rest;
  }

  lemma SplitWord(w: string)
    requires IsWord(w)
    ensures Split(w) == [w]
  {
    SplitNonSpace(w);
    TakeWordOfWord(w);
    assert w[|w|..] == [];
    assert Split([]) == [];
  }

  lemma SplitWordSpace(w: string, rest: string)
    requires IsWord(w)
    ensures Split(w + " " + rest) == [w] + Split(rest)
  {
    SplitWordThenSpace(w, rest);
    SplitSpacePrefix(rest);
  }

  lemma JoinCons(words: seq<string>)
    requires |words| > 1
    ensures Join(" ", words) == words[0] + " " + Join(" ", words[1..])
  {
  }

  lemma SplitJoinCons(words: seq<string>, rest: string)
    requires |words| > 1 && IsWord(words[0]) && Split(rest) == words[1..]
    ensures Split(words[0] + " " + rest) == words
  {
    SplitWordSpace(words[0], rest);
    assert [words[0]] + words[1..] == words;
  }

  /** Every element of `ws` is a word. */
  predicate AllWords(ws: seq<string>) {
    ws == [] || (IsWord(ws[0]) && AllWords(ws[1..]))
  }

  /** Splitting words joined by single spaces gives back the words. */
  lemma {:induction false} SplitJoin(words: seq<string>)
    requires AllWords(words)
    ensures Split(Join(" ", words)) == words
  {
    if |words| == 1 {
      assert Join(" ", words) == words[0];
      SplitWord(words[0]);
    } else if |words| > 1 {
      SplitJoin(words[1..]);
      JoinCons(words);
      SplitJoinCons(words, Join(" ", words[1..]));
    }
  }

  /** `s.startswith(p)` */
  predicate StartsWith(s: string, p: string) {
    |p| <= |s| && s[..|p|] == p
  }

  /** Python's `sub in s` for strings. */
  predicate Contains(s: string, sub: string)
    decreases |s|
  {
    StartsWith(s, sub) || (s != [] && Contains(s[1..], sub))
  }

  lemma ContainsAt(s: string, sub: string, i: nat)
    requires i + |sub| <= |s| && s[i..i + |sub|] == sub
    ensures Contains(s, sub)
    decreases i
  {
    if i > 0 {
      assert s[1..][i - 1..i - 1 + |sub|] == sub;
      ContainsAt(s[1..], sub, i - 1);
    }
  }

  predicate IsDigit(c: char) { '0' <= c <= '9' }

  /** `str.isdigit` for ASCII digits: non-empty and only decimal digits. */
  predicate IsDigits(s: string) {
    |s| > 0 && forall i :: 0 <= i < |s| ==> IsDigit(s[i])
  }

  /** The decimal value of a string of digits. */
  function DigitsValue(s: string): nat
    requires forall i :: 0 <= i < |s| ==> IsDigit(s[i])
  {
    if |s| == 0 then 0
    else
      assert IsDigit(s[|s| - 1]);
      DigitsValue(s[..|s| - 1]) * 10 + (s[|s| - 1] as int - '0' as int)
  }

  function DigitChar(d: nat): (c: char)
    requires d < 10
    ensures IsDigit(c) && c as int - '0' as int == d
  {
    ('0' as int + d) as char
  }

  /** Python's `str(n)` for a non-negative integer. */
  function NatToString(n: nat): (r: string)
    ensures IsDigits(r)
  {
    if n < 10 then [DigitChar(n)] else NatToString(n / 10) + [DigitChar(n % 10)]
  }

  /** Python's `str(i)` for an integer. */
  function IntToString(i: int): string {
    if i < 0 then "-" + NatToString(-i) else NatToString(i)
  }

  /** Python's `str(b)` for a boolean. */
  function BoolToString(b: bool): string {
    if b then "True" else "False"
  }

  lemma {:induction false} NatToStringValue(n: nat)
    ensures DigitsValue(NatToString(n)) == n
  {
    if n >= 10 {
      var s := NatToString(n);
      assert s[..|s| - 1] == NatToString(n / 10);
      NatToStringValue(n / 10);
    }
  }

  /** Python's `s.strip()` with no argument. */
  function Strip(s: string): (r: string)
    ensures |r| <= |s|
    ensures r == [] || (!IsSpace(r[0]) && !IsSpace(r[|r| - 1]))
  {
    var t := DropSpaces(s);
    DropTrailing(t)
  }

  function DropTrailing(s: string): (r: string)
    requires s == [] || !IsSpace(s[0])
    ensures |r| <= |s| && r == s[..|r|]
    ensures r == [] || (!IsSpace(r[0]) && !IsSpace(r[|r| - 1]))
  {
    if s != [] && IsSpace(s[|s| - 1]) then DropTrailing(s[..|s| - 1]) else s
  }

  /**
   * The body of a decimal literal `int()` accepts: ASCII digits, with single
   * underscores allowed between two of them.
   */
  predicate IsNumeral(s: string)
    decreases |s|
  {
    && |s| > 0
    && IsDigit(s[|s| - 1])
    && (|s| == 1 || IsNumeral(s[..|s| - 1]) || (|s| > 2 && s[|s| - 2] == '_' && IsNumeral(s[..|s| - 2])))
  }

  /** The value of a numeral: that of its digits, the underscores left out. */
  function NumeralValue(s: string): nat
    requires IsNumeral(s)
    decreases |s|
  {
    var d := s[|s| - 1] as int - '0' as int;
    if |s| == 1 then d
    else if IsNumeral(s[..|s| - 1]) then NumeralValue(s[..|s| - 1]) * 10 + d
    else NumeralValue(s[..|s| - 2]) * 10 + d
  }

  /** Python's `int(s)` on a string: surrounding whitespace, an optional
   * sign and a numeral. `None` stands for the ValueError it raises.
   */
  function ParseInt(s: string): Option<int> {
    var t := Strip(s);
    if |t| > 0 && (t[0] == '-' || t[0] == '+') then
      if IsNumeral(t[1..]) then
        Some(if t[0] == '-' then 0 - NumeralValue(t[1..]) as int else NumeralValue(t[1..]) as int)
      else None
    else if IsNumeral(t) then Some(NumeralValue(t))
    else None
  }

  /** Digits alone are a numeral with the value they have as digits. */
  lemma {:induction false} DigitsNumeral(s: string)
    requires IsDigits(s)
    ensures IsNumeral(s) && NumeralValue(s) == DigitsValue(s)
  {
    if |s| > 1 {
      var p := s[..|s| - 1];
      assert IsDigits(p) by { assert forall i :: 0 <= i < |p| ==> p[i] == s[i]; }
      DigitsNumeral(p);
    }
  }

  /** A numeral alone is read as its value. */
  lemma ParseIntNumeral(s: string)
    requires IsNumeral(s)
    ensures ParseInt(s) == Some(NumeralValue(s))
  {
    assert IsDigit(s[0]) by {
      if !IsDigit(s[0]) {
        NumeralFirstDigit(s);
      }
    }
    StripNoSpaceEnds(s);
  }

  lemma {:induction false} NumeralFirstDigit(s: string)
    requires IsNumeral(s)
    ensures IsDigit(s[0])
    decreases |s|
  {
    if |s| > 1 {
      if IsNumeral(s[..|s| - 1]) {
        NumeralFirstDigit(s[..|s| - 1]);
      } else {
        NumeralFirstDigit(s[..|s| - 2]);
      }
    }
  }

  /** A digit separator does not change the value: `int("4_2") == 42`. */
  lemma ParseIntUnderscore()
    ensures ParseInt("4_2") == Some(42)
  {
    assert "4_2"[..1] == "4" && "4_2"[..2] == "4_";
    ParseIntNumeral("4_2");
  }

  lemma StripNoSpaceEnds(s: string)
    requires s != [] && !IsSpace(s[0]) && !IsSpace(s[|s| - 1])
    ensures Strip(s) == s
  {
    assert DropSpaces(s) == s;
  }

  /** `int(str(i)) == i` */
  lemma ParseIntToString(i: int)
    ensures ParseInt(IntToString(i)) == Some(i)
  {
    var s := IntToString(i);
    if i < 0 {
      var d := NatToString(-i);
      assert s == "-" + d;
      StripNoSpaceEnds(s);
      assert s[1..] == d;
      DigitsNumeral(d);
      NatToStringValue(-i);
    } else {
      StripNoSpaceEnds(s);
      DigitsNumeral(s);
      NatToStringValue(i);
    }
  }

  /** Python's `s.replace(old, new)`: every non-overlapping occurrence, left to right. */
  function Replace(s: string, pat: string, rep: string): string
    requires |pat| > 0
    decreases |s|
  {
    if StartsWith(s, pat) then rep + Replace(s[|pat|..], pat, rep)
    else if s == [] then []
    else [s[0]] + Replace(s[1..], pat, rep)
  }

  /** Text in which `pat` does not occur is left alone. */
  lemma {:induction false} ReplaceAbsent(s: string, pat: string, rep: string)
    requires |pat| > 0 && !Contains(s, pat)
    ensures Replace(s, pat, rep) == s
    decreases |s|
  {
    if s != [] {
      ReplaceAbsent(s[1..], pat, rep);
    }
  }

  /** No occurrence of `pat` starts at any of the first `n` positions of `s`. */
  predicate NoMatchBefore(s: string, pat: string, n: nat)
    requires n <= |s|
    decreases n
  {
    n == 0 || (!StartsWith(s, pat) && NoMatchBefore(s[1..], pat, n - 1))
  }

  lemma ReplaceStep(s: string, pat: string, rep: string)
    requires |pat| > 0 && s != [] && !StartsWith(s, pat)
    ensures Replace(s, pat, rep) == [s[0]] + Replace(s[1..], pat, rep)
  {
  }

  lemma ReplaceAtStart(s: string, pat: string, rep: string)
    requires |pat| > 0 && StartsWith(s, pat)
    ensures Replace(s, pat, rep) == rep + Replace(s[|pat|..], pat, rep)
  {
  }

  lemma ReplaceAtZero(s: string, pat: string, rep: string)
    requires |pat| > 0 && |pat| <= |s| && s[0..|pat|] == pat
    ensures Replace(s, pat, rep) == s[..0] + rep + Replace(s[0 + |pat|..], pat, rep)
  {
    assert s[..|pat|] == s[0..|pat|];
    ReplaceAtStart(s, pat, rep);
    EmptyPrefix(s, rep + Replace(s[|pat|..], pat, rep));
  }

  lemma EmptyPrefix(s: string, x: string)
    ensures s[..0] + x == x
  {
    assert s[..0] == [];
  }

  lemma TailSlices(s: string, pat: string, n: nat)
    requires 0 < n && n + |pat| <= |s| && s[n..n + |pat|] == pat
    ensures s[1..][n - 1..n - 1 + |pat|] == pat && s[1..][n - 1 + |pat|..] == s[n + |pat|..]
  {
  }

  lemma ConsPrefix(s: string, n: nat, mid: string, r: string, tailResult: string)
    requires 0 < n <= |s| && tailResult == s[1..][..n - 1] + mid + r
    ensures [s[0]] + tailResult == s[..n] + mid + r
  {
    assert [s[0]] + s[1..][..n - 1] == s[..n];
  }

  /**
   * When the first occurrence of `pat` in `s` starts at `n`, it is the one
   * replaced, and replacing carries on after it.
   */
  lemma {:induction false} ReplaceFirst(s: string, pat: string, rep: string, n: nat)
    requires |pat| > 0 && n + |pat| <= |s| && s[n..n + |pat|] == pat
    requires NoMatchBefore(s, pat, n)
    ensures Replace(s, pat, rep) == s[..n] + rep + Replace(s[n + |pat|..], pat, rep)
    decreases n
  {
    if n == 0 {
      ReplaceAtZero(s, pat, rep);
    } else {
      var t := s[1..];
      ReplaceStep(s, pat, rep);
      TailSlices(s, pat, n);
      ReplaceFirst(t, pat, rep, n - 1);
      ConsPrefix(s, n, rep, Replace(s[n + |pat|..], pat, rep), Replace(t, pat, rep));
    }
  }

  /** A pattern without a newline is replaced on each side of a newline separately. */
  lemma {:induction false} ReplaceAroundNewline(a: string, b: string, pat: string, rep: string)
    requires |pat| > 0 && forall k :: 0 <= k < |pat| ==> pat[k] != '\n'
    ensures Replace(a + "\n" + b, pat, rep) == Replace(a, pat, rep) + "\n" + Replace(b, pat, rep)
    decreases |a|
  {
    var s := a + "\n" + b;
    if a == [] {
      assert s == "\n" + b;
      assert !StartsWith(s, pat) by { assert s[0] != pat[0]; }
      assert s[1..] == b;
    } else if StartsWith(a, pat) {
      assert s[..|pat|] == a[..|pat|];
      assert s[|pat|..] == a[|pat|..] + "\n" + b;
      ReplaceAroundNewline(a[|pat|..], b, pat, rep);
    } else {
      assert !StartsWith(s, pat) by {
        if |pat| <= |a| {
          assert s[..|pat|] == a[..|pat|];
        } else if |pat| <= |s| {
          assert s[..|pat|][|a|] == '\n';
        }
      }
      assert s[1..] == a[1..] + "\n" + b;
      ReplaceAroundNewline(a[1..], b, pat, rep);
    }
  }

  /** Text without the pattern's first character does not contain it. */
  lemma {:induction false} NoFirstCharNoMatch(s: string, pat: string)
    requires |pat| > 0 && forall k :: 0 <= k < |s| ==> s[k] != pat[0]
    ensures !Contains(s, pat)
    decreases |s|
  {
    if s != [] {
      assert !StartsWith(s, pat) by {
        if |pat| <= |s| {
          assert s[..|pat|][0] == s[0];
        }
      }
      NoFirstCharNoMatch(s[1..], pat);
    }
  }

  /** A text that is exactly the pattern is replaced whole. */
  lemma ReplaceWhole(pat: string, rep: string)
    requires |pat| > 0
    ensures Replace(pat, pat, rep) == rep
  {
    assert pat[|pat|..] == [];
  }

  // Python's list.sort() on integers and set() on a list.

  predicate Sorted(s: seq<int>) {
    forall i, j :: 0 <= i < j < |s| ==> s[i] <= s[j]
  }

  /** `x` put in front of the first element of `s` that is not smaller. */
  function InsertSorted(x: int, s: seq<int>): (r: seq<int>)
    ensures multiset(r) == multiset(s) + multiset{x}
  {
    if s == [] then [x]
    else if x <= s[0] then [x] + s
    else
      assert s == [s[0]] + s[1..];
      [s[0]] + InsertSorted(x, s[1..])
  }

  lemma {:induction false} InsertSortedSorted(x: int, s: seq<int>)
    requires Sorted(s)
    ensures Sorted(InsertSorted(x, s))
  {
    if s != [] && x > s[0] {
      var rest := InsertSorted(x, s[1..]);
      InsertSortedSorted(x, s[1..]);
      forall i | 0 <= i < |rest|
        ensures s[0] <= rest[i]
      {
        assert rest[i] in multiset(rest);
        assert rest[i] == x || rest[i] in multiset(s[1..]);
      }
    }
  }

  /** The list in ascending order (`sorted`), with its duplicates kept. */
  function Sort(s: seq<int>): (r: seq<int>)
    ensures Sorted(r) && multiset(r) == multiset(s)
  {
    if s == [] then []
    else
      assert s == [s[0]] + s[1..];
      InsertSortedSorted(s[0], Sort(s[1..]));
      InsertSorted(s[0], Sort(s[1..]))
  }

  lemma SortMembers(s: seq<int>, x: int)
    ensures x in Sort(s) <==> x in s
  {
    assert x in Sort(s) <==> x in multiset(Sort(s));
    assert x in s <==> x in multiset(s);
  }

  predicate Distinct<T(==)>(s: seq<T>) {
    forall i, j :: 0 <= i < j < |s| ==> s[i] != s[j]
  }

  /** The elements of `s` once each, in order of first occurrence: a list of `set(s)`. */
  function Dedup(s: seq<int>): (r: seq<int>)
    ensures forall x :: x in r <==> x in s
    ensures Distinct(r)
  {
    if s == [] then []
    else
      var rest := Dedup(s[..|s| - 1]);
      if s[|s| - 1] in rest then rest else rest + [s[|s| - 1]]
  }
}
