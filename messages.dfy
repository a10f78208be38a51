/**
 * The plain-text messages the consultation and tax-return forms send: a
 * header, then one line per field made of a fixed lead (`"Email: "`) and
 * the field's value. `Lines` reads such a text back, as
 * `text.split('\n')` would.
 */
module Messages {

  /** One line of a message: the fixed text before the value, and the value. */
  datatype Entry = Entry(lead: string, value: string)

  /** The text of one entry, without its line break. */
  function LineOf(e: Entry): string {
    e.lead + e.value
  }

  /** `value || fallback`: an empty value is replaced by the fallback. */
  function Or(value: string, fallback: string): (r: string)
    ensures r != "" <== value != "" || fallback != ""
    ensures r == value || (value == "" && r == fallback)
  {
    if value == "" then fallback else value
  }

  /** How a checkbox is reported: `Tak` (yes) or `Nie` (no). */
  function YesNo(b: bool): (r: string)
    ensures r != "" && '\n' !in r
    ensures b <==> r == "Tak"
  {
    if b then "Tak" else "Nie"
  }

  /** What a builder that starts from `header` and appends
      `` `${lead}${value}\n` `` for each entry in turn produces. */
  function Report(header: string, es: seq<Entry>): (r: string)
    ensures header <= r
  {
    if es == [] then header
    else Report(header, es[..|es| - 1]) + es[|es| - 1].lead + es[|es| - 1].value + "\n"
  }

  /** One `+=` step of a builder. */
  lemma Appended(header: string, done: seq<Entry>, e: Entry, message: string)
    requires message == Report(header, done) + e.lead + e.value + "\n"
    ensures message == Report(header, done + [e])
  {
    assert (done + [e])[..|done|] == done;
  }

  /** A last `+=` step whose line ends in a blank line. */
  lemma AppendedWithBlank(header: string, done: seq<Entry>, e: Entry, message: string)
    requires message == Report(header, done) + e.lead + e.value + "\n\n"
    ensures message == Report(header, done + [e]) + "\n"
  {
    assert "\n\n" == "\n" + "\n";
    Appended(header, done, e, Report(header, done) + e.lead + e.value + "\n");
  }

  /** The entries, each on its own line terminated by `\n`. */
  function Render(es: seq<Entry>): string {
    if es == [] then "" else LineOf(es[0]) + "\n" + Render(es[1..])
  }

  /** Rendering one more entry appends its line. */
  lemma {:induction false} RenderSnoc(es: seq<Entry>, e: Entry)
    ensures Render(es + [e]) == Render(es) + LineOf(e) + "\n"
    decreases |es|
  {
    if es == [] {
      assert es + [e] == [e];
      assert [e][1..] == [];
    } else {
      assert (es + [e])[0] == es[0];
      assert (es + [e])[1..] == es[1..] + [e];
      RenderSnoc(es[1..], e);
    }
  }

  /** A built report is its header followed by the rendered entries. */
  lemma {:induction false} ReportIsRender(header: string, es: seq<Entry>)
    ensures Report(header, es) == header + Render(es)
    decreases |es|
  {
    if es != [] {
      var init, last := es[..|es| - 1], es[|es| - 1];
      assert es == init + [last];
      ReportSnoc(header, init, last);
      ReportIsRender(header, init);
      RenderSnoc(init, last);
    }
  }

  /** The lines one expects to read back from `Render(es)`. */
  function EntryLines(es: seq<Entry>): (lines: seq<string>)
    ensures |lines| == |es|
    ensures forall i | 0 <= i < |es| :: lines[i] == LineOf(es[i])
  {
    if es == [] then [] else [LineOf(es[0])] + EntryLines(es[1..])
  }

  /** Neither the lead nor the value of any entry contains a line break. */
  predicate SingleLine(es: seq<Entry>) {
    es == [] || ('\n' !in es[0].lead && '\n' !in es[0].value && SingleLine(es[1..]))
  }

  /** The text before the first line break (all of `s` if there is none). */
  function TakeLine(s: string): (w: string)
    ensures w <= s && '\n' !in w
    ensures |w| < |s| ==> s[|w|] == '\n'
  {
    if s == [] || s[0] == '\n' then [] else [s[0]] + TakeLine(s[1..])
  }

  /** `s.split('\n')`. */
  function Lines(s: string): (lines: seq<string>)
    ensures |lines| >= 1
    decreases |s|
  {
    var w := TakeLine(s);
    if |w| == |s| then [w] else [w] + Lines(s[|w| + 1..])
  }

  lemma {:induction false} TakeLineOfLine(a: string, b: string)
    requires '\n' !in a
    ensures TakeLine(a + "\n" + b) == a
    decreases |a|
  {
    if a != [] {
      assert (a + "\n" + b)[0] == a[0];
      assert (a + "\n" + b)[1..] == a[1..] + "\n" + b;
      TakeLineOfLine(a[1..], b);
    } else {
      assert (a + "\n" + b)[0] == '\n';
    }
  }

  /** Splitting after a line that has no break of its own. */
  lemma LinesCons(a: string, b: string)
    requires '\n' !in a
    ensures Lines(a + "\n" + b) == [a] + Lines(b)
  {
    TakeLineOfLine(a, b);
    assert (a + "\n" + b)[|a| + 1..] == b;
  }

  /** Reading a rendered message back line by line recovers every entry's
      `lead value` line, in order, as long as no entry spans lines. */
  lemma {:induction false} LinesOfRender(es: seq<Entry>, tail: string)
    requires SingleLine(es)
    ensures Lines(Render(es) + tail) == EntryLines(es) + Lines(tail)
    decreases |es|
  {
    if es != [] {
      var line := LineOf(es[0]);
      assert '\n' !in line by {
        assert '\n' !in es[0].lead && '\n' !in es[0].value;
        assert line == es[0].lead + es[0].value;
      }
      calc {
        Lines(Render(es) + tail);
        { assert Render(es) + tail == line + "\n" + (Render(es[1..]) + tail); }
        Lines(line + "\n" + (Render(es[1..]) + tail));
        { LinesCons(line, Render(es[1..]) + tail); }
        [line] + Lines(Render(es[1..]) + tail);
        { LinesOfRender(es[1..], tail); }
        [line] + (EntryLines(es[1..]) + Lines(tail));
      }
    } else {
      assert Render(es) + tail == tail;
    }
  }

  /** A text with no line break is a single line. */
  lemma {:induction false} LinesOfLine(a: string)
    requires '\n' !in a
    ensures Lines(a) == [a]
    decreases |a|
  {
    if a != [] {
      LinesOfLine(a[1..]);
      assert TakeLine(a) == [a[0]] + TakeLine(a[1..]);
      assert [a[0]] + a[1..] == a;
    }
  }

  /** A line break-free start stays on the first line, whatever follows. */
  lemma {:induction false} TakeLineKeeps(a: string, b: string)
    requires '\n' !in a
    ensures a <= TakeLine(a + b)
    decreases |a|
  {
    if a != [] {
      assert (a + b)[0] == a[0];
      assert (a + b)[1..] == a[1..] + b;
      TakeLineKeeps(a[1..], b);
    }
  }

  /** A report with one more entry ends in that entry's line. */
  lemma ReportSnoc(header: string, es: seq<Entry>, e: Entry)
    ensures Report(header, es + [e]) == Report(header, es) + (LineOf(e) + "\n")
  {
    assert (es + [e])[..|es|] == es;
  }

  /** The first line of a text starting with a line break-free `a` starts
      with `a`. */
  lemma FirstLineKeeps(a: string, b: string)
    requires '\n' !in a
    ensures a <= Lines(a + b)[0]
  {
    TakeLineKeeps(a, b);
  }

  /** A titled report whose last entry's value may span lines: the lines
      before that entry read back as usual, the rest is the last entry's
      own lines, and the first of those still starts with its lead. */
  lemma LinesOfReportOpenLast(title: string, es: seq<Entry>, e: Entry)
    requires '\n' !in title && SingleLine(es) && '\n' !in e.lead
    ensures var lines := Lines(Report(title + "\n\n", es + [e]));
      && lines == [title, ""] + EntryLines(es) + Lines(LineOf(e) + "\n")
      && |lines| >= |es| + 3
      && e.lead <= lines[|es| + 2]
  {
    var tail := LineOf(e) + "\n";
    ReportSnoc(title + "\n\n", es, e);
    LinesOfReport(title, es, tail);
    assert tail == e.lead + (e.value + "\n");
    FirstLineKeeps(e.lead, e.value + "\n");
  }

  /** A double line break is two single ones. */
  lemma DoubleBreak(title: string, rest: string)
    ensures title + "\n\n" + rest == title + "\n" + ([] + "\n" + rest)
  {
  }

  /** A title line followed by a blank line. */
  lemma LinesAfterTitle(title: string, rest: string)
    requires '\n' !in title
    ensures Lines(title + "\n\n" + rest) == [title, ""] + Lines(rest)
  {
    var blank := [] + "\n" + rest;
    DoubleBreak(title, rest);
    LinesCons(title, blank);
    BlankThen(rest);
  }

  /** A blank line followed by `rest`. */
  lemma BlankThen(rest: string)
    ensures Lines([] + "\n" + rest) == [""] + Lines(rest)
  {
    LinesCons([], rest);
  }

  /** A report with a title line and a blank line as its header, followed
      by a tail, reads back as the title, the blank line, one line per entry
      and the lines of the tail. */
  lemma LinesOfReport(title: string, es: seq<Entry>, tail: string)
    requires '\n' !in title && SingleLine(es)
    ensures Lines(Report(title + "\n\n", es) + tail)
         == [title, ""] + EntryLines(es) + Lines(tail)
  {
    var rest := Render(es) + tail;
    ReportIsRender(title + "\n\n", es);
    assert Report(title + "\n\n", es) + tail == title + "\n\n" + rest;
    LinesAfterTitle(title, rest);
    LinesOfRender(es, tail);
  }

  /** The same, for a report followed by a blank line and one last line. */
  lemma LinesOfReportThenLine(title: string, es: seq<Entry>, last: string)
    requires '\n' !in title && SingleLine(es) && '\n' !in last
    ensures Lines(Report(title + "\n\n", es) + "\n" + last)
         == [title, ""] + EntryLines(es) + ["", last]
  {
    var tail := [] + "\n" + last;
    assert Report(title + "\n\n", es) + "\n" + last == Report(title + "\n\n", es) + tail;
    LinesOfReport(title, es, tail);
    LinesCons([], last);
    LinesOfLine(last);
  }
}
