/**
 * The parts of .NET that the validators lean on: char.IsWhiteSpace,
 * string.IsNullOrWhiteSpace, string.Trim, string.Split(' ', RemoveEmptyEntries),
 * and the results a validation attribute reports.
 */
module Annotations {
  import opened Wrappers

  /** char.IsWhiteSpace: Unicode categories Zs, Zl and Zp, plus U+0009..U+000D, U+0085 and U+00A0. */
  predicate IsWhiteSpace(c: char) {
    || c == ' ' || ('\t' <= c <= '\r') || c == '\U{0085}' || c == '\U{00A0}'
    || c == '\U{1680}' || ('\U{2000}' <= c <= '\U{200A}') || c == '\U{2028}' || c == '\U{2029}'
    || c == '\U{202F}' || c == '\U{205F}' || c == '\U{3000}'
  }

  predicate AllWhiteSpace(s: string) {
    forall i :: 0 <= i < |s| ==> IsWhiteSpace(s[i])
  }

  /** string.IsNullOrWhiteSpace: null, empty, or white space only. */
  predicate IsNullOrWhiteSpace(value: Option<string>) {
    value.None? || AllWhiteSpace(value.value)
  }

  function TrimStart(s: string): string {
    if s != [] && IsWhiteSpace(s[0]) then TrimStart(s[1..]) else s
  }

  function TrimEnd(s: string): string {
    if s != [] && IsWhiteSpace(s[|s| - 1]) then TrimEnd(s[..|s| - 1]) else s
  }

  /**
   * string.Trim: nothing is left of a blank string; of any other, a piece
   * that starts and ends with a character that is not white space.
   */
  function Trim(s: string): (r: string)
    ensures |r| <= |s|
    ensures r == [] <==> AllWhiteSpace(s)
    ensures r != [] ==> !IsWhiteSpace(r[0]) && !IsWhiteSpace(r[|r| - 1])
  {
    var t := TrimStart(s);
    TrimStartShape(s);
    TrimEndShape(t);
    var r := TrimEnd(t);
    assert r == [] ==> AllWhiteSpace(t) by {
      if r == [] { assert t[|r|..] == t; }
    }
    assert AllWhiteSpace(t) ==> AllWhiteSpace(s) by {
      if AllWhiteSpace(t) {
        assert s == s[..|s| - |t|] + t;
      }
    }
    assert t != [] ==> !AllWhiteSpace(s) by {
      if t != [] {
        assert t[0] == s[|s| - |t|];
      }
    }
    assert r != [] ==> r[0] == t[0];
    r
  }

  /** TrimStart drops white space at the front, and nothing else. */
  lemma {:induction false} TrimStartShape(s: string)
    ensures |TrimStart(s)| <= |s| && TrimStart(s) == s[|s| - |TrimStart(s)|..]
    ensures AllWhiteSpace(s[..|s| - |TrimStart(s)|])
    ensures TrimStart(s) == [] || !IsWhiteSpace(TrimStart(s)[0])
  {
    if s != [] && IsWhiteSpace(s[0]) {
      TrimStartShape(s[1..]);
      var r := TrimStart(s[1..]);
      assert s[1..][|s[1..]| - |r|..] == s[|s| - |r|..];
      assert s[..|s| - |r|] == [s[0]] + s[1..][..|s[1..]| - |r|];
    } else {
      assert s[..0] == [];
    }
  }

  /** TrimEnd drops white space at the back, and nothing else. */
  lemma {:induction false} TrimEndShape(s: string)
    ensures |TrimEnd(s)| <= |s| && TrimEnd(s) == s[..|TrimEnd(s)|]
    ensures AllWhiteSpace(s[|TrimEnd(s)|..])
    ensures TrimEnd(s) == [] || !IsWhiteSpace(TrimEnd(s)[|TrimEnd(s)| - 1])
  {
    if s != [] && IsWhiteSpace(s[|s| - 1]) {
      var p := s[..|s| - 1];
      TrimEndShape(p);
      var r := TrimEnd(p);
      assert p[..|r|] == s[..|r|];
      assert s[|r|..] == p[|r|..] + [s[|s| - 1]];
    } else {
      assert s[|s|..] == [];
    }
  }

  function Flush(word: string): seq<string> {
    if word == [] then [] else [word]
  }

  /**
   * Splits `s` on the space character, dropping empty entries; `word` holds
   * the characters of the entry being read.
   */
  function SplitFrom(s: string, word: string): (parts: seq<string>)
    requires ' ' !in word
    ensures forall i :: 0 <= i < |parts| ==> parts[i] != [] && ' ' !in parts[i]
  {
    if s == [] then Flush(word)
    else if s[0] == ' ' then Flush(word) + SplitFrom(s[1..], [])
    else SplitFrom(s[1..], word + [s[0]])
  }

  /** string.Split(' ', StringSplitOptions.RemoveEmptyEntries). */
  function Split(s: string): seq<string> {
    SplitFrom(s, [])
  }

  /** A validation error: the members it is reported on and its message. */
  datatype FieldError = FieldError(members: seq<string>, message: string)

  /** ValidationResult.Success, or a ValidationResult carrying a message. */
  datatype ValidationResult = Success | Failure(message: string)

  // Facts about Trim and Split that the validators' lemmas use.

  lemma {:induction false} TrimStartOfWhiteSpacePrefix(a: string, t: string)
    requires AllWhiteSpace(a)
    ensures TrimStart(a + t) == TrimStart(t)
  {
    if a != [] {
      assert (a + t)[1..] == a[1..] + t;
      TrimStartOfWhiteSpacePrefix(a[1..], t);
    } else {
      assert a + t == t;
    }
  }

  lemma {:induction false} TrimStartOfTextPrefix(a: string, t: string)
    requires !AllWhiteSpace(a)
    ensures TrimStart(a + t) == TrimStart(a) + t
    ensures TrimStart(a) != [] && !IsWhiteSpace(TrimStart(a)[0])
  {
    assert a != [];
    if IsWhiteSpace(a[0]) {
      assert (a + t)[1..] == a[1..] + t;
      TrimStartOfTextPrefix(a[1..], t);
    }
  }

  lemma {:induction false} TrimEndOfWhiteSpaceSuffix(x: string, b: string)
    requires AllWhiteSpace(b)
    ensures TrimEnd(x + b) == TrimEnd(x)
    decreases |b|
  {
    if b != [] {
      var b' := b[..|b| - 1];
      assert (x + b)[..|x + b| - 1] == x + b';
      TrimEndOfWhiteSpaceSuffix(x, b');
    } else {
      assert x + b == x;
    }
  }

  lemma {:induction false} TrimEndOfTextSuffix(x: string, b: string)
    requires !AllWhiteSpace(b)
    ensures TrimEnd(x + b) == x + TrimEnd(b)
    decreases |b|
  {
    assert b != [];
    var b' := b[..|b| - 1];
    if IsWhiteSpace(b[|b| - 1]) {
      assert (x + b)[..|x + b| - 1] == x + b';
      TrimEndOfTextSuffix(x, b');
    }
  }

  lemma {:induction false} TrimStartOfWhiteSpace(s: string)
    requires AllWhiteSpace(s)
    ensures TrimStart(s) == []
  {
    TrimStartOfWhiteSpacePrefix(s, []);
    assert s + [] == s;
  }

  /** A run of spaces between two words splits like a single space. */
  lemma {:induction false} SplitDoubleSpace(a: string, b: string, word: string)
    requires ' ' !in word
    ensures SplitFrom(a + [' '] + b, word) == SplitFrom(a + [' ', ' '] + b, word)
    decreases |a|
  {
    if a == [] {
      assert a + [' '] + b == [' '] + b;
      assert a + [' ', ' '] + b == [' '] + ([' '] + b);
      assert ([' '] + b)[1..] == b;
      assert ([' '] + ([' '] + b))[1..] == [' '] + b;
    } else {
      assert (a + [' '] + b)[0] == a[0] && (a + [' '] + b)[1..] == a[1..] + [' '] + b;
      assert (a + [' ', ' '] + b)[0] == a[0] && (a + [' ', ' '] + b)[1..] == a[1..] + [' ', ' '] + b;
      if a[0] == ' ' {
        SplitDoubleSpace(a[1..], b, []);
      } else {
        SplitDoubleSpace(a[1..], b, word + [a[0]]);
      }
    }
  }

  /** Characters other than the space extend the entry being read. */
  lemma {:induction false} SplitFromWord(w: string, rest: string, word: string)
    requires ' ' !in word && ' ' !in w
    ensures SplitFrom(w + rest, word) == SplitFrom(rest, word + w)
    decreases |w|
  {
    if w == [] {
      assert w + rest == rest && word + w == word;
    } else {
      assert (w + rest)[0] == w[0] && (w + rest)[1..] == w[1..] + rest;
      assert word + [w[0]] + w[1..] == word + w;
      SplitFromWord(w[1..], rest, word + [w[0]]);
    }
  }

  /** The words joined with a single space between each two. */
  function Join(ws: seq<string>): string
    decreases |ws|
  {
    if ws == [] then []
    else if |ws| == 1 then ws[0]
    else ws[0] + " " + Join(ws[1..])
  }

  /** A word as Split returns it: not empty, and without a space. */
  predicate IsWord(w: string) {
    w != [] && ' ' !in w
  }

  /** Splitting joined words, with `word` already read, gives the words back, the first one extended by `word`. */
  lemma {:induction false} SplitFromJoin(ws: seq<string>, word: string)
    requires ws != [] && ' ' !in word
    requires forall i :: 0 <= i < |ws| ==> IsWord(ws[i])
    ensures SplitFrom(Join(ws), word) == [word + ws[0]] + ws[1..]
    decreases |ws|
  {
    if |ws| == 1 {
      SplitFromWord(ws[0], [], word);
      assert ws[0] + [] == ws[0];
    } else {
      var rest := Join(ws[1..]);
      assert Join(ws) == ws[0] + (" " + rest);
      SplitFromWord(ws[0], " " + rest, word);
      assert (" " + rest)[0] == ' ' && (" " + rest)[1..] == rest;
      SplitFromJoin(ws[1..], []);
      assert [] + ws[1..][0] == ws[1];
      assert [ws[1]] + ws[1..][1..] == ws[1..];
    }
  }

  /** Split undoes Join: words joined by single spaces split back into the same words, in order. */
  lemma SplitJoin(ws: seq<string>)
    requires forall i :: 0 <= i < |ws| ==> IsWord(ws[i])
    ensures Split(Join(ws)) == ws
  {
    if ws != [] {
      SplitFromJoin(ws, []);
      assert [] + ws[0] == ws[0];
    }
  }

  /** A text without spaces is at most one entry. */
  lemma {:induction false} SplitWithoutSpace(s: string, word: string)
    requires ' ' !in word
    ensures ' ' !in s ==> |SplitFrom(s, word)| <= 1
    decreases |s|
  {
    if s != [] && ' ' !in s {
      assert s[0] != ' ' && ' ' !in s[1..];
      SplitWithoutSpace(s[1..], word + [s[0]]);
    }
  }
}
