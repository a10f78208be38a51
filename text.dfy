/**
 * The string primitives the contact form's validators rely on: the
 * whitespace class `\s`, JavaScript's `String.prototype.length`, the token
 * count `s.split(/\s+/).filter(s => s).length` and the email pattern
 * `/\S+@\S+\.\S+/.test(s)`.
 */
module Text {

  /** The whitespace class `\s`, restricted to a fixed set of characters:
      space, tab, line feed, vertical tab, form feed, carriage return and
      the no-break space. */
  predicate IsWhitespace(c: char) {
    c == ' ' || c == '\t' || c == '\n' || c == '\U{000B}' || c == '\U{000C}'
    || c == '\r' || c == '\U{00A0}'
  }

  /** Every character of `s` belongs to `\S`. */
  predicate WhitespaceFree(s: string) {
    forall k | 0 <= k < |s| :: !IsWhitespace(s[k])
  }

  // ---------------------------------------------------------------------
  // String length as JavaScript counts it
  // ---------------------------------------------------------------------

  /** `s.length` in JavaScript: the number of UTF-16 code units, so a
      character outside the Basic Multilingual Plane counts twice. */
  function Utf16Length(s: string): (n: nat)
    ensures |s| <= n <= 2 * |s|
  {
    if s == [] then 0
    else (if s[0] as int > 0xFFFF then 2 else 1) + Utf16Length(s[1..])
  }

  // ---------------------------------------------------------------------
  // s.split(/\s+/).filter(s => s)
  // ---------------------------------------------------------------------

  /** The longest whitespace-free prefix of `s`. */
  function TakeWord(s: string): (w: string)
    ensures w <= s && WhitespaceFree(w)
    ensures |w| < |s| ==> IsWhitespace(s[|w|])
  {
    if s == [] || IsWhitespace(s[0]) then [] else [s[0]] + TakeWord(s[1..])
  }

  /** `s` without its leading run of whitespace (what one greedy match of
      `\s+` consumes). */
  function DropSpace(s: string): (r: string)
    ensures |r| <= |s| && r == s[|s| - |r|..]
    ensures forall k | 0 <= k < |s| - |r| :: IsWhitespace(s[k])
    ensures r != [] ==> !IsWhitespace(r[0])
  {
    if s != [] && IsWhitespace(s[0]) then DropSpace(s[1..]) else s
  }

  /** `s.split(/\s+/)`: the pieces between maximal runs of whitespace. A
      leading or trailing run yields an empty piece, and `""` splits into
      `[""]`. */
  function Split(s: string): (pieces: seq<string>)
    ensures |pieces| >= 1
    ensures forall p | p in pieces :: WhitespaceFree(p)
    decreases |s|
  {
    var w := TakeWord(s);
    var rest := s[|w|..];
    if rest == [] then [w] else [w] + Split(DropSpace(rest))
  }

  /** `.filter(s => s)`: keeps the non-empty strings, in order. */
  function NonEmpty(ps: seq<string>): (r: seq<string>)
    ensures |r| <= |ps|
    ensures forall p | p in r :: p != "" && p in ps
    ensures forall p | p in ps && p != "" :: p in r
    ensures forall p :: multiset(r)[p] == if p == "" then 0 else multiset(ps)[p]
  {
    if ps == [] then []
    else
      assert ps == [ps[0]] + ps[1..];
      (if ps[0] == "" then [] else [ps[0]]) + NonEmpty(ps[1..])
  }

  /** The tokens of `s`: `s.split(/\s+/).filter(s => s)`. */
  function Words(s: string): (ws: seq<string>)
    ensures forall w | w in ws :: w != "" && WhitespaceFree(w)
  {
    NonEmpty(Split(s))
  }

  /** `s.split(/\s+/).filter(s => s).length`. */
  function WordCount(s: string): nat {
    |Words(s)|
  }

  /** An independent count of the maximal non-whitespace runs of `s`: a
      position starts a run when it holds a non-whitespace character and
      either is the first position or follows whitespace (`inWord` says
      whether the character before `s` was a non-whitespace one). */
  function Runs(s: string, inWord: bool): nat {
    if s == [] then 0
    else if IsWhitespace(s[0]) then Runs(s[1..], false)
    else (if inWord then 0 else 1) + Runs(s[1..], true)
  }

  /** The number of maximal non-whitespace runs of `s`. */
  function RunCount(s: string): nat {
    Runs(s, false)
  }

  lemma {:induction false} RunsOfWord(w: string, t: string, inWord: bool)
    requires w != [] && WhitespaceFree(w)
    ensures Runs(w + t, inWord) == (if inWord then 0 else 1) + Runs(t, true)
    decreases |w|
  {
    assert (w + t)[0] == w[0];
    assert (w + t)[1..] == w[1..] + t;
    if |w| == 1 {
      assert w[1..] + t == t;
    } else {
      RunsOfWord(w[1..], t, true);
    }
  }

  lemma {:induction false} RunsOfSpace(s: string, inWord: bool)
    requires s != [] && IsWhitespace(s[0])
    ensures Runs(s, inWord) == Runs(DropSpace(s), false)
    decreases |s|
  {
    if s[1..] != [] && IsWhitespace(s[1..][0]) {
      RunsOfSpace(s[1..], false);
    }
  }

  lemma {:induction false} NonEmptyAppend(a: seq<string>, b: seq<string>)
    ensures NonEmpty(a + b) == NonEmpty(a) + NonEmpty(b)
    decreases |a|
  {
    if a != [] {
      assert (a + b)[0] == a[0];
      assert (a + b)[1..] == a[1..] + b;
      NonEmptyAppend(a[1..], b);
    } else {
      assert a + b == b;
    }
  }

  /** The split-and-filter token count is exactly the number of maximal
      non-whitespace runs. */
  lemma {:induction false} WordCountIsRunCount(s: string)
    ensures WordCount(s) == RunCount(s)
    decreases |s|
  {
    var w := TakeWord(s);
    var rest := s[|w|..];
    assert s == w + rest;
    if rest == [] {
      assert Split(s) == [w];
      assert NonEmpty([w]) == (if w == "" then [] else [w]) by {
        assert [w][1..] == [];
      }
      if w != [] {
        RunsOfWord(w, rest, false);
      }
    } else {
      var tail := DropSpace(rest);
      assert Split(s) == [w] + Split(tail);
      NonEmptyAppend([w], Split(tail));
      assert NonEmpty([w]) == (if w == "" then [] else [w]) by {
        assert [w][1..] == [];
      }
      WordCountIsRunCount(tail);
      RunsOfSpace(rest, w != []);
      if w != [] {
        RunsOfWord(w, rest, false);
      } else {
        assert s == rest;
      }
    }
  }

  /** Every character of `s` belongs to `\s`. */
  predicate Blank(s: string) {
    forall k | 0 <= k < |s| :: IsWhitespace(s[k])
  }

  lemma {:induction false} RunsZeroIffBlank(s: string)
    ensures Runs(s, false) == 0 <==> Blank(s)
    decreases |s|
  {
    if s != [] {
      RunsZeroIffBlank(s[1..]);
      if IsWhitespace(s[0]) {
        assert Blank(s) <==> Blank(s[1..]) by {
          forall k | 1 <= k < |s| ensures s[k] == s[1..][k - 1] { }
        }
      }
    }
  }

  /** A text has no tokens exactly when it is empty or all whitespace, so
      a whitespace-only `requests` counts as zero tokens. */
  lemma NoWordsIffBlank(s: string)
    ensures WordCount(s) == 0 <==> Blank(s)
  {
    WordCountIsRunCount(s);
    RunsZeroIffBlank(s);
  }

  /** The text of `s` with every whitespace character removed. */
  function Strip(s: string): string
    decreases |s|
  {
    if s == [] then [] else (if IsWhitespace(s[0]) then [] else [s[0]]) + Strip(s[1..])
  }

  /** The pieces laid end to end. */
  function Concat(ps: seq<string>): string {
    if ps == [] then [] else ps[0] + Concat(ps[1..])
  }

  lemma {:induction false} StripAppend(a: string, b: string)
    ensures Strip(a + b) == Strip(a) + Strip(b)
    decreases |a|
  {
    if a != [] {
      assert (a + b)[0] == a[0];
      assert (a + b)[1..] == a[1..] + b;
      StripAppend(a[1..], b);
    } else {
      assert a + b == b;
    }
  }

  lemma {:induction false} StripOfWord(w: string)
    requires WhitespaceFree(w)
    ensures Strip(w) == w
    decreases |w|
  {
    if w != [] {
      StripOfWord(w[1..]);
      assert [w[0]] + w[1..] == w;
    }
  }

  lemma {:induction false} StripOfSpace(s: string)
    ensures Strip(s) == Strip(DropSpace(s))
    decreases |s|
  {
    if s != [] && IsWhitespace(s[0]) {
      StripOfSpace(s[1..]);
    }
  }

  /** The pieces of `split(/\s+/)`, laid end to end, are the text of `s`
      with its whitespace taken out: they hold every non-whitespace
      character of `s`, in order, and nothing else. */
  lemma {:induction false} SplitKeepsText(s: string)
    ensures Concat(Split(s)) == Strip(s)
    decreases |s|
  {
    var w := TakeWord(s);
    var rest := s[|w|..];
    assert s == w + rest;
    StripAppend(w, rest);
    StripOfWord(w);
    if rest == [] {
      assert Split(s) == [w];
      assert Concat([w]) == w + Concat([]);
    } else {
      var tail := DropSpace(rest);
      assert Split(s) == [w] + Split(tail);
      assert Concat([w] + Split(tail)) == w + Concat(Split(tail)) by {
        assert ([w] + Split(tail))[1..] == Split(tail);
      }
      SplitKeepsText(tail);
      StripOfSpace(rest);
    }
  }

  // ---------------------------------------------------------------------
  // /\S+@\S+\.\S+/.test(s)
  // ---------------------------------------------------------------------

  /** `w` as a whole matches `\S+@\S+\.\S+`: it is whitespace-free and has
      an `@` after at least one character, followed by at least one
      character, a `.`, and at least one more character. */
  predicate FullyMatchesEmail(w: string) {
    WhitespaceFree(w)
    && exists p, q | 0 < p < q < |w| - 1 && p + 1 < q :: w[p] == '@' && w[q] == '.'
  }

  /** The unanchored test `/\S+@\S+\.\S+/.test(s)`: some substring of `s`
      matches the pattern. */
  predicate EmailPattern(s: string) {
    exists a, b | 0 <= a < b <= |s| :: FullyMatchesEmail(s[a..b])
  }

  /** A match needs at least five characters. */
  lemma ShortTextIsNoEmail(s: string)
    requires |s| < 5
    ensures !EmailPattern(s)
  {
  }

  /** A match holds an `@` and, after it, a `.`. */
  lemma EmailHasAtAndDot(s: string)
    requires EmailPattern(s)
    ensures exists i, j | 0 < i < j < |s| - 1 :: s[i] == '@' && s[j] == '.'
  {
    var a, b :| 0 <= a < b <= |s| && FullyMatchesEmail(s[a..b]);
    var w := s[a..b];
    var p, q :| 0 < p < q < |w| - 1 && p + 1 < q && w[p] == '@' && w[q] == '.';
    assert s[a + p] == '@' && s[a + q] == '.';
  }

  /** Neither a missing domain suffix nor an empty domain label matches. */
  lemma IncompleteAddressesRejected()
    ensures !EmailPattern("a@b")
    ensures !EmailPattern("a@.c")
  {
    ShortTextIsNoEmail("a@b");
    ShortTextIsNoEmail("a@.c");
  }

  /** A space inside the address breaks every match. */
  lemma SpacedAddressRejected()
    ensures !EmailPattern("a @b.c")
  {
    var s := "a @b.c";
    forall a, b | 0 <= a < b <= |s|
      ensures !FullyMatchesEmail(s[a..b])
    {
      if a <= 1 && 1 < b {
        assert s[a..b][1 - a] == ' ';
      }
    }
  }

  /** The test is unanchored: an address inside a longer text matches. */
  lemma EmbeddedAddressAccepted()
    ensures EmailPattern("x a@b.c y")
  {
    var s := "x a@b.c y";
    var w := s[2..7];
    assert w == "a@b.c";
    assert w[1] == '@' && w[3] == '.';
    assert FullyMatchesEmail(w);
  }
}
