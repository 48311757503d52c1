/**
 * `write_lines_to_file_ll`: each line is written with its embedded newlines
 * escaped as the two characters `\` `n`, followed by one newline; the file is
 * removed first if it exists, so the result replaces whatever was there.
 */
module FileWriting {
  import Text

  /** The number of newline characters in `s`. */
  function NewlineCount(s: string): nat
  {
    if s == [] then 0 else (if s[0] == '\n' then 1 else 0) + NewlineCount(s[1..])
  }

  /** `re.sub(r'\n', r"\\n", line)`: each newline becomes a backslash followed by `n`. */
  function Escape(s: string): (r: string)
    ensures '\n' !in r
    ensures |r| == |s| + NewlineCount(s)
  {
    if s == [] then []
    else (if s[0] == '\n' then ['\\', 'n'] else [s[0]]) + Escape(s[1..])
  }

  /** Reading an escaped line back: a backslash followed by `n` becomes a newline. */
  function Unescape(s: string): string
  {
    if s == [] then []
    else if |s| >= 2 && s[0] == '\\' && s[1] == 'n' then ['\n'] + Unescape(s[2..])
    else [s[0]] + Unescape(s[1..])
  }

  /** `s` contains a backslash immediately followed by `n`. */
  predicate HasEscapeLookalike(s: string) {
    exists i :: 0 <= i < |s| - 1 && s[i] == '\\' && s[i + 1] == 'n'
  }

  /** The escaping is undone by reading it back, for lines that do not already contain the two-character sequence. */
  lemma {:induction false} UnescapeEscape(s: string)
    requires !HasEscapeLookalike(s)
    ensures Unescape(Escape(s)) == s
    decreases |s|
  {
    if s != [] {
      assert !HasEscapeLookalike(s[1..]) by {
        forall i | 0 <= i < |s[1..]| - 1 ensures !(s[1..][i] == '\\' && s[1..][i + 1] == 'n') {
          assert s[1..][i] == s[i + 1] && s[1..][i + 1] == s[i + 2];
        }
      }
      UnescapeEscape(s[1..]);
      var e := Escape(s[1..]);
      if s[0] == '\n' {
        assert Escape(s) == ['\\', 'n'] + e;
        assert (['\\', 'n'] + e)[2..] == e;
      } else {
        assert Escape(s) == [s[0]] + e;
        assert ([s[0]] + e)[1..] == e;
        if s[0] == '\\' && |e| > 0 {
          // the character after the backslash is not `n`, so it starts `e` unchanged or as a backslash
          assert |s| >= 2 ==> s[1] != 'n';
          assert e[0] == (if s[1] == '\n' then '\\' else s[1]);
        }
      }
    }
  }

  /** Escaping is not injective: a newline and a literal backslash-`n` are written identically. */
  lemma EscapeConflates()
    ensures Escape("\n") == Escape("\\n")
    ensures "\n" != "\\n"
  {
    assert Escape("\\n") == ['\\'] + Escape("n");
  }

  /** The text written for `lines`: each escaped line followed by exactly one newline. */
  function Render(lines: seq<string>): string
  {
    if lines == [] then [] else Escape(lines[0]) + "\n" + Render(lines[1..])
  }

  /** The written text holds exactly one newline per line: the terminators, none from inside a line. */
  lemma {:induction false} RenderNewlineCount(lines: seq<string>)
    ensures NewlineCount(Render(lines)) == |lines|
    decreases |lines|
  {
    if lines != [] {
      RenderNewlineCount(lines[1..]);
      var rest := Render(lines[1..]);
      NewlineCountAppend(Escape(lines[0]), "\n" + rest);
      NoNewlineCount(Escape(lines[0]));
      assert ("\n" + rest)[0] == '\n' && ("\n" + rest)[1..] == rest;
      assert NewlineCount("\n" + rest) == 1 + NewlineCount(rest);
      assert Escape(lines[0]) + "\n" + rest == Escape(lines[0]) + ("\n" + rest);
    }
  }

  lemma {:induction false} NewlineCountAppend(a: string, b: string)
    ensures NewlineCount(a + b) == NewlineCount(a) + NewlineCount(b)
    decreases |a|
  {
    if a == [] {
      assert a + b == b;
    } else {
      NewlineCountAppend(a[1..], b);
      assert (a + b)[1..] == a[1..] + b;
    }
  }

  lemma {:induction false} NoNewlineCount(a: string)
    requires '\n' !in a
    ensures NewlineCount(a) == 0
    decreases |a|
  {
    if a != [] {
      NoNewlineCount(a[1..]);
    }
  }

  /** `[Escape(l) for l in lines]`. */
  function EscapeAll(lines: seq<string>): (escaped: seq<string>)
    ensures |escaped| == |lines|
    ensures forall i :: 0 <= i < |lines| ==> escaped[i] == Escape(lines[i])
  {
    if lines == [] then [] else [Escape(lines[0])] + EscapeAll(lines[1..])
  }

  /**
   * Reading the file back line by line gives the escaped lines, in order and
   * one per written line, followed by the empty remainder after the final
   * newline.
   */
  lemma {:induction false} RenderSplitsIntoLines(lines: seq<string>)
    ensures Text.Split(Render(lines), "\n") == EscapeAll(lines) + [""]
    decreases |lines|
  {
    if lines == [] {
      Text.SplitWithoutSeparator("", "\n");
    } else {
      var head, rest := Escape(lines[0]), Render(lines[1..]);
      assert Render(lines) == head + "\n" + rest;
      RenderSplitsIntoLines(lines[1..]);
      assert "\n"[0] !in head;
      Text.SplitAfterPrefix(head, "\n", rest);
      assert EscapeAll(lines) == [head] + EscapeAll(lines[1..]);
    }
  }

  /** Appending a line to the list appends its escaped form and one newline to the text. */
  lemma {:induction false} RenderAppend(lines: seq<string>, line: string)
    ensures Render(lines + [line]) == Render(lines) + Escape(line) + "\n"
    decreases |lines|
  {
    if lines == [] {
      assert [] + [line] == [line];
      assert [line][1..] == [];
    } else {
      assert (lines + [line])[1..] == lines[1..] + [line];
      RenderAppend(lines[1..], line);
    }
  }

  /** What a file holds: text written by the escaping writer, or lines handed to the library's own writer. */
  datatype FileContent =
    | Written(text: string)
    | LibraryLines(lines: seq<string>)

  /** The files the drivers write, by path. */
  class FileStore {
    var files: map<string, FileContent>

    constructor(initial: map<string, FileContent>)
      ensures files == initial
    {
      files := initial;
    }

    /**
     * `write_lines_to_file_ll(lines, filename)`: the file at `filename` is
     * removed if it exists, re-opened for writing, and each line is written
     * escaped with one terminating newline; no other file changes.
     */
    method WriteLinesEscaped(lines: seq<string>, filename: string)
      modifies this
      ensures files == old(files)[filename := Written(Render(lines))]
    {
      if filename in files {
        files := files - {filename};
      }
      files := files[filename := Written("")];
      var i := 0;
      while i < |lines|
        invariant 0 <= i <= |lines|
        invariant files == old(files)[filename := Written(Render(lines[..i]))]
      {
        RenderAppend(lines[..i], lines[i]);
        assert lines[..i + 1] == lines[..i] + [lines[i]];
        files := files[filename := Written(files[filename].text + Escape(lines[i]) + "\n")];
        i := i + 1;
      }
      assert lines[..i] == lines;
    }

    /** The library's `write_lines_to_file`, whose on-disk format is not part of this model. */
    method WriteLinesLibrary(lines: seq<string>, filename: string)
      modifies this
      ensures files == old(files)[filename := LibraryLines(lines)]
    {
      files := files[filename := LibraryLines(lines)];
    }
  }
}
