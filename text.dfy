/**
 * The JavaScript string operations the dashboard relies on, over `seq<char>`:
 * `split` on a one-character separator, `trim`, `replace` of the first
 * occurrence of a one-character string, the `/\b\w/g` word capitalisation and
 * the decimal rendering of a non-negative integer in a template literal.
 */
module Text {
  import opened Wrappers

  /** A character of JavaScript's `\w` class (no `u` flag): an ASCII letter, digit or '_'. */
  predicate IsWordChar(c: char) {
    ('a' <= c <= 'z') || ('A' <= c <= 'Z') || ('0' <= c <= '9') || c == '_'
  }

  /** `toUpperCase` on a one-character string that `\w` matched. */
  function ToUpper(c: char): char {
    if 'a' <= c <= 'z' then (c as int - 32) as char else c
  }

  /** ECMAScript WhiteSpace and LineTerminator code points, the characters `trim` removes. */
  predicate IsSpace(c: char) {
    c in {'\t', '\n', '\U{000B}', '\U{000C}', '\r', ' ', '\U{00A0}', '\U{1680}',
          '\U{2000}', '\U{2001}', '\U{2002}', '\U{2003}', '\U{2004}', '\U{2005}',
          '\U{2006}', '\U{2007}', '\U{2008}', '\U{2009}', '\U{200A}', '\U{2028}',
          '\U{2029}', '\U{202F}', '\U{205F}', '\U{3000}', '\U{FEFF}'}
  }

  predicate IsBlank(s: string) {
    forall i :: 0 <= i < |s| ==> IsSpace(s[i])
  }

  // ---------------------------------------------------------------- indexOf

  /** Position of the first `c` in `s`, or `|s|` when there is none. */
  function IndexOf(s: string, c: char): (k: nat)
    ensures k <= |s|
    ensures c !in s[..k]
    ensures k < |s| ==> s[k] == c
    ensures k == |s| <==> c !in s
  {
    if s == [] then 0
    else if s[0] == c then 0
    else
      assert s[1..][..IndexOf(s[1..], c)] == s[1..IndexOf(s[1..], c) + 1];
      1 + IndexOf(s[1..], c)
  }

  // --------------------------------------------------------------- replace

  /** `s.replace(from, to)` with one-character strings: only the first occurrence is replaced. */
  function ReplaceFirst(s: string, from: char, to: char): (r: string)
    ensures |r| == |s|
    ensures var k := IndexOf(s, from);
      r == if k < |s| then s[..k] + [to] + s[k + 1..] else s
  {
    if s == [] then []
    else if s[0] == from then [to] + s[1..]
    else [s[0]] + ReplaceFirst(s[1..], from, to)
  }

  // ----------------------------------------------------------- capitalise

  /** Whether `/\b\w/` matches at position i of `s` when `afterWord` says whether a word character precedes `s`. */
  predicate StartsWordAfter(s: string, i: int, afterWord: bool)
    requires 0 <= i < |s|
  {
    IsWordChar(s[i]) && (if i == 0 then !afterWord else !IsWordChar(s[i - 1]))
  }

  /** Whether `/\b\w/` matches at position i: a word character at the start of the text or after a non-word character. */
  predicate StartsWord(s: string, i: int)
    requires 0 <= i < |s|
  {
    StartsWordAfter(s, i, false)
  }

  /** The left-to-right scan of `replace(/\b\w/g, l => l.toUpperCase())`. */
  function CapitalizeFrom(s: string, afterWord: bool): (r: string)
    ensures |r| == |s|
    ensures forall i :: 0 <= i < |s| ==>
      r[i] == if StartsWordAfter(s, i, afterWord) then ToUpper(s[i]) else s[i]
  {
    if s == [] then []
    else
      var head := if IsWordChar(s[0]) && !afterWord then ToUpper(s[0]) else s[0];
      var rest := CapitalizeFrom(s[1..], IsWordChar(s[0]));
      assert forall i :: 1 <= i < |s| ==>
        StartsWordAfter(s[1..], i - 1, IsWordChar(s[0])) == StartsWordAfter(s, i, afterWord);
      [head] + rest
  }

  /** `s.replace(/\b\w/g, l => l.toUpperCase())`: every word-initial character is upper-cased, every other character is kept. */
  function CapitalizeWords(s: string): (r: string)
    ensures |r| == |s|
    ensures forall i :: 0 <= i < |s| ==> r[i] == if StartsWord(s, i) then ToUpper(s[i]) else s[i]
  {
    CapitalizeFrom(s, false)
  }

  /** Element by element, `ReplaceFirst` changes the first occurrence and nothing else. */
  lemma ReplaceFirstAt(s: string, from: char, to: char)
    ensures forall i :: 0 <= i < |s| ==>
      ReplaceFirst(s, from, to)[i] == if i == IndexOf(s, from) then to else s[i]
  {
    var k := IndexOf(s, from);
    var r := ReplaceFirst(s, from, to);
    if k < |s| {
      assert r == s[..k] + [to] + s[k + 1..];
      forall i | 0 <= i < |s|
        ensures r[i] == if i == k then to else s[i]
      {
        if i < k {
          assert r[i] == s[..k][i];
        } else if i > k {
          assert r[i] == s[k + 1..][i - k - 1];
        }
      }
    }
  }

  /**
   * The label formatting shared by the report and strategy lists:
   * `s.replace(sep, ' ')` followed by the word capitalisation. The first
   * separator becomes a space, word-initial characters are upper-cased, and
   * every other character is kept.
   */
  function FormatLabel(s: string, sep: char): (r: string)
    ensures |r| == |s|
    ensures IndexOf(s, sep) < |s| ==> r[IndexOf(s, sep)] == ' '
    ensures forall i :: 0 <= i < |s| && i != IndexOf(s, sep) ==>
      r[i] == if StartsWord(ReplaceFirst(s, sep, ' '), i) then ToUpper(s[i]) else s[i]
  {
    ReplaceFirstAt(s, sep, ' ');
    CapitalizeWords(ReplaceFirst(s, sep, ' '))
  }

  predicate IsLowerWord(w: string) {
    |w| > 0 && forall i :: 0 <= i < |w| ==> 'a' <= w[i] <= 'z'
  }

  /** A word with its first letter upper-cased. */
  function Capitalized(w: string): (r: string)
    requires |w| > 0
    ensures |r| == |w| && r[0] == ToUpper(w[0]) && r[1..] == w[1..]
  {
    [ToUpper(w[0])] + w[1..]
  }

  lemma IndexOfAfterWord(a: string, b: string, sep: char)
    requires sep !in a
    ensures IndexOf(a + [sep] + b, sep) == |a|
  {
    var s := a + [sep] + b;
    assert s[..|a|] == a;
    assert s[|a|] == sep;
  }

  /** Replacing the separator between two words leaves the words joined by a space. */
  lemma ReplaceBetweenWords(a: string, b: string, sep: char)
    requires sep !in a
    ensures ReplaceFirst(a + [sep] + b, sep, ' ') == a + " " + b
  {
    var s := a + [sep] + b;
    IndexOfAfterWord(a, b, sep);
    assert s[..|a|] == a && s[|a| + 1..] == b;
  }

  /** Capitalising two lower-case words separated by a space capitalises each. */
  lemma CapitalizeTwoWords(a: string, b: string)
    requires IsLowerWord(a) && IsLowerWord(b)
    ensures CapitalizeWords(a + " " + b) == Capitalized(a) + " " + Capitalized(b)
  {
    var t := a + " " + b;
    var r := CapitalizeWords(t);
    var e := Capitalized(a) + " " + Capitalized(b);
    forall i | 0 <= i < |t|
      ensures r[i] == e[i]
    {
      if i < |a| {
        WordPart(a, " " + b, i);
        assert t == a + (" " + b);
        assert e == Capitalized(a) + (" " + Capitalized(b));
      } else if i > |a| {
        WordPart(b, [], i - |a| - 1);
        assert t == (a + " ") + b;
        assert e == (Capitalized(a) + " ") + Capitalized(b);
        assert StartsWord(t, i) == StartsWordAfter(b, i - |a| - 1, false);
      }
    }
  }

  /** Inside a lower-case word at the start of a text, exactly its first letter starts a word. */
  lemma WordPart(w: string, rest: string, i: nat)
    requires IsLowerWord(w) && i < |w|
    ensures StartsWord(w + rest, i) <==> i == 0
    ensures StartsWord(w, i) <==> i == 0
    ensures Capitalized(w)[i] == if i == 0 then ToUpper(w[i]) else w[i]
  {
    if i > 0 {
      assert Capitalized(w)[i] == Capitalized(w)[1..][i - 1];
    }
  }

  /** Two lower-case words joined by the separator format to both words capitalised, joined by a space. */
  lemma TwoWordLabel(a: string, b: string, sep: char)
    requires IsLowerWord(a) && IsLowerWord(b) && sep !in a
    ensures FormatLabel(a + [sep] + b, sep) == Capitalized(a) + " " + Capitalized(b)
  {
    ReplaceBetweenWords(a, b, sep);
    CapitalizeTwoWords(a, b);
  }

  /** A lower-case word without the separator formats to the word capitalised. */
  lemma OneWordLabel(w: string, sep: char)
    requires IsLowerWord(w) && sep !in w
    ensures FormatLabel(w, sep) == Capitalized(w)
  {
    assert ReplaceFirst(w, sep, ' ') == w;
    var r := CapitalizeWords(w);
    forall i | 0 <= i < |w|
      ensures r[i] == Capitalized(w)[i]
    {
      WordPart(w, [], i);
      assert w + [] == w;
    }
  }

  /** Upper-casing keeps word characters word characters, so capitalising twice changes nothing more. */
  lemma CapitalizeIdempotent(s: string)
    ensures CapitalizeWords(CapitalizeWords(s)) == CapitalizeWords(s)
  {
    var r := CapitalizeWords(s);
    var rr := CapitalizeWords(r);
    forall i | 0 <= i < |s|
      ensures rr[i] == r[i]
    {
      assert IsWordChar(r[i]) == IsWordChar(s[i]);
      if i > 0 {
        assert IsWordChar(r[i - 1]) == IsWordChar(s[i - 1]);
      }
    }
  }

  // ----------------------------------------------------------------- split

  /** `s.split(sep)` for a one-character separator: the pieces between separators, empty pieces included. */
  function Split(s: string, sep: char): (parts: seq<string>)
    ensures |parts| >= 1
    ensures forall k :: 0 <= k < |parts| ==> sep !in parts[k]
  {
    if s == [] then [""]
    else
      var rest := Split(s[1..], sep);
      if s[0] == sep then [""] + rest
      else [[s[0]] + rest[0]] + rest[1..]
  }

  /** `parts.join(sep)`. */
  function Join(parts: seq<string>, sep: char): string
    requires |parts| >= 1
  {
    if |parts| == 1 then parts[0] else parts[0] + [sep] + Join(parts[1..], sep)
  }

  /** Splitting loses nothing: joining the pieces with the separator gives the text back. */
  lemma {:induction false} JoinSplit(s: string, sep: char)
    ensures Join(Split(s, sep), sep) == s
  {
    if s != [] {
      var rest := Split(s[1..], sep);
      JoinSplit(s[1..], sep);
      if s[0] == sep {
        assert Split(s, sep)[1..] == rest;
      } else {
        var parts := Split(s, sep);
        if |rest| == 1 {
          assert parts == [[s[0]] + rest[0]];
        } else {
          assert parts[1..] == rest[1..];
          assert Join(rest, sep) == rest[0] + [sep] + Join(rest[1..], sep);
        }
      }
    }
  }

  /** The first piece of a split is the text up to, not including, the first separator. */
  lemma {:induction false} FirstPieceIsPrefix(s: string, sep: char)
    ensures Split(s, sep)[0] == s[..IndexOf(s, sep)]
  {
    if s != [] && s[0] != sep {
      FirstPieceIsPrefix(s[1..], sep);
      assert s[..IndexOf(s, sep)] == [s[0]] + s[1..][..IndexOf(s[1..], sep)];
    }
  }

  /** Splitting at the first separator peels off the first word. */
  lemma {:induction false} SplitAfterWord(w: string, rest: string, sep: char)
    requires sep !in w
    ensures Split(w + [sep] + rest, sep) == [w] + Split(rest, sep)
  {
    if w == [] {
      assert w + [sep] + rest == [sep] + rest;
      assert ([sep] + rest)[1..] == rest;
    } else {
      SplitAfterWord(w[1..], rest, sep);
      assert (w + [sep] + rest)[1..] == w[1..] + [sep] + rest;
      assert [w[0]] + w[1..] == w;
    }
  }

  /** A text without the separator splits into itself. */
  lemma {:induction false} SplitNoSeparator(w: string, sep: char)
    requires sep !in w
    ensures Split(w, sep) == [w]
  {
    if w != [] {
      SplitNoSeparator(w[1..], sep);
      assert [w[0]] + w[1..] == w;
    }
  }

  /** The k-th piece of `s.split(sep)`, or None where JavaScript yields `undefined`. */
  function Piece(s: string, sep: char, k: nat): (r: Option<string>)
    ensures r.Some? <==> k < |Split(s, sep)|
    ensures r.Some? ==> sep !in r.value
  {
    var parts := Split(s, sep);
    if k < |parts| then Some(parts[k]) else None
  }

  // ------------------------------------------------------------------ trim

  /** Number of white-space characters at the start of `s`. */
  function LeadingSpaces(s: string): (k: nat)
    ensures k <= |s|
    ensures forall i :: 0 <= i < k ==> IsSpace(s[i])
    ensures k < |s| ==> !IsSpace(s[k])
  {
    if s == [] || !IsSpace(s[0]) then 0 else 1 + LeadingSpaces(s[1..])
  }

  /** Number of white-space characters at the end of `s`. */
  function TrailingSpaces(s: string): (k: nat)
    ensures k <= |s|
    ensures forall i :: |s| - k <= i < |s| ==> IsSpace(s[i])
    ensures k < |s| ==> !IsSpace(s[|s| - 1 - k])
  {
    if s == [] || !IsSpace(s[|s| - 1]) then 0 else 1 + TrailingSpaces(s[..|s| - 1])
  }

  /** `s.trim()`. */
  function Trim(s: string): (r: string)
    ensures r == [] || (!IsSpace(r[0]) && !IsSpace(r[|r| - 1]))
    ensures exists a, b :: 0 <= a <= b <= |s| && r == s[a..b] && IsBlank(s[..a]) && IsBlank(s[b..])
  {
    var a := LeadingSpaces(s);
    var t := s[a..];
    var b := a + |t| - TrailingSpaces(t);
    assert t[..|t| - TrailingSpaces(t)] == s[a..b];
    assert IsBlank(s[..a]) && IsBlank(s[b..]);
    s[a..b]
  }

  /** `!s.trim()` holds exactly for the text made only of white space (the empty text included). */
  lemma TrimEmptyIffBlank(s: string)
    ensures Trim(s) == [] <==> IsBlank(s)
  {
  }

  // --------------------------------------------------------------- numbers

  function DigitChar(d: nat): (c: char)
    requires d < 10
    ensures '0' <= c <= '9'
  {
    ('0' as int + d) as char
  }

  predicate IsDigits(s: string) {
    forall i :: 0 <= i < |s| ==> '0' <= s[i] <= '9'
  }

  /** The number a string of decimal digits denotes, read most significant digit first. */
  function DecimalValue(s: string): nat
    requires IsDigits(s)
  {
    if s == [] then 0 else 10 * DecimalValue(s[..|s| - 1]) + (s[|s| - 1] as int - '0' as int)
  }

  /** The decimal rendering of a non-negative integer, as `${n}` gives it. */
  function NatToString(n: nat): (r: string)
    ensures |r| >= 1 && IsDigits(r)
  {
    if n < 10 then [DigitChar(n)] else NatToString(n / 10) + [DigitChar(n % 10)]
  }

  /** The rendering denotes the number and has no leading zero. */
  lemma {:induction false} NatToStringDenotes(n: nat)
    ensures DecimalValue(NatToString(n)) == n
    ensures NatToString(n)[0] == '0' <==> n == 0
    ensures |NatToString(n)| > 1 ==> NatToString(n)[0] != '0'
  {
    if n >= 10 {
      NatToStringDenotes(n / 10);
      var r := NatToString(n);
      assert r[..|r| - 1] == NatToString(n / 10);
    }
  }

  /** Different numbers render differently. */
  lemma NatToStringInjective(m: nat, n: nat)
    requires m != n
    ensures NatToString(m) != NatToString(n)
  {
    NatToStringDenotes(m);
    NatToStringDenotes(n);
  }
}
