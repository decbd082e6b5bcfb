/** A text sink written in order, as the serializers use a StreamWriter or a
    StringBuilder: `Write` appends text, `WriteLine` appends text and a line end. The
    line end is "\n", Environment.NewLine on Unix. */
module TextWriters {

  class TextWriter {
    var text: string

    constructor()
      ensures text == ""
    {
      text := "";
    }

    method Write(s: string)
      modifies this
      ensures text == old(text) + s
    {
      text := text + s;
    }

    /** Ends the current line: `AppendLine()` or `WriteLine()` with no argument. */
    method EndLine()
      modifies this
      ensures text == old(text) + "\n"
    {
      text := text + "\n";
    }

    method WriteLine(s: string)
      modifies this
      ensures text == old(text) + (s + "\n")
    {
      text := text + (s + "\n");
    }
  }

  /** Appending in two steps is appending once: how a writer's text is followed
      through a run of writes. */
  lemma Assoc<T>(a: seq<T>, b: seq<T>, c: seq<T>)
    ensures a + b + c == a + (b + c)
  {
  }

  /** Lines written one after the other, each with its line end. */
  function Text(lines: seq<string>): (r: string)
    ensures |r| >= |lines|
  {
    if lines == [] then "" else Text(lines[..|lines| - 1]) + lines[|lines| - 1] + "\n"
  }

  /** One line written is the line and its line end. */
  lemma TextLine(l: string)
    ensures Text([l]) == l + "\n"
  {
    assert [l][..0] == [];
  }

  /** A line written after some lines: the writer holds one more line. */
  lemma Line(start: string, lines: seq<string>, l: string)
    ensures start + Text(lines) + (l + "\n") == start + Text(lines + [l])
  {
    TextAppend(lines, [l]);
    TextLine(l);
    Assoc(start, Text(lines), Text([l]));
  }

  /** A line written in two pieces and ended: the writer holds one more line. */
  lemma Pieces(start: string, lines: seq<string>, a: string, b: string)
    ensures start + Text(lines) + a + b + "\n" == start + Text(lines + [a + b])
  {
    Line(start, lines, a + b);
    Assoc(start + Text(lines), a, b);
    Assoc(start + Text(lines), a + b, "\n");
  }

  /** One line written in two pieces and ended. */
  lemma OneLine(start: string, a: string, b: string)
    ensures start + a + b + "\n" == start + Text([a + b])
  {
    Pieces(start, [], a, b);
    assert start + Text([]) == start;
    assert [] + [a + b] == [a + b];
  }

  /** Lines written after some lines: the writer holds both runs. */
  lemma Lines(start: string, a: seq<string>, b: seq<string>)
    ensures start + Text(a) + Text(b) == start + Text(a + b)
  {
    TextAppend(a, b);
    Assoc(start, Text(a), Text(b));
  }

  /** Writing two runs of lines writes their concatenation. */
  lemma {:induction false} TextAppend(a: seq<string>, b: seq<string>)
    ensures Text(a + b) == Text(a) + Text(b)
    decreases |b|
  {
    if b != [] {
      var b' := b[..|b| - 1];
      assert (a + b)[..|a + b| - 1] == a + b';
      TextAppend(a, b');
    } else {
      assert a + b == a;
    }
  }

  /** The number of line ends in a text. */
  function LineEnds(s: string): nat {
    if s == [] then 0 else LineEnds(s[..|s| - 1]) + (if s[|s| - 1] == '\n' then 1 else 0)
  }

  lemma {:induction false} LineEndsAppend(s: string, t: string)
    ensures LineEnds(s + t) == LineEnds(s) + LineEnds(t)
    decreases |t|
  {
    if t != [] {
      var t' := t[..|t| - 1];
      assert (s + t)[..|s + t| - 1] == s + t';
      LineEndsAppend(s, t');
    } else {
      assert s + t == s;
    }
  }

  /** Lines without line ends of their own give one line end each. */
  lemma {:induction false} TextLineEnds(lines: seq<string>)
    requires forall i :: 0 <= i < |lines| ==> '\n' !in lines[i]
    ensures LineEnds(Text(lines)) == |lines|
  {
    if lines != [] {
      var init := lines[..|lines| - 1];
      var last := lines[|lines| - 1];
      TextLineEnds(init);
      NoLineEnds(last);
      LineEndsAppend(Text(init), last);
      LineEndsAppend(Text(init) + last, "\n");
    }
  }

  lemma {:induction false} NoLineEnds(s: string)
    requires '\n' !in s
    ensures LineEnds(s) == 0
  {
    if s != [] {
      NoLineEnds(s[..|s| - 1]);
    }
  }
}
