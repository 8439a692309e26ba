/** The article view of the Blog page: a post's content is split at line
    breaks and every line becomes one display block on its own. This is a
    line classifier, not Markdown: a code fence opens nothing, so the lines
    between two fences are classified like any other line. */
module BlogRender {
  import opened Text

  /** What one line of content is shown as: a heading `h1`..`h6`, a `pre`
      code box, a paragraph, or a line break. */
  datatype Block = Heading(level: nat, text: String) | Code(text: String) | Paragraph(text: String) | Blank

  /** Headings deeper than this are shown at this level. */
  const MaxHeadingLevel: nat := 6

  /** The code fence that starts a code line. */
  const Fence: String := "```"

  function Min(a: nat, b: nat): nat
  {
    if a <= b then a else b
  }

  /** The match of `/^#+\s*` on `line`: `hashes` number signs followed by
      `spaces` white-space characters, each run as long as it can be. */
  ghost predicate HeadingPrefix(line: String, hashes: nat, spaces: nat)
  {
    && 1 <= hashes && hashes + spaces <= |line|
    && (forall i :: 0 <= i < hashes ==> line[i] == '#')
    && (hashes == |line| || line[hashes] != '#')
    && AllSpace(line[hashes..hashes + spaces])
    && (hashes + spaces == |line| || !IsSpace(line[hashes + spaces]))
  }

  /** One line: a heading when it starts with `#` (the number signs give the
      level, capped at six, and are removed with the white space after them);
      otherwise a code line when it starts with the fence (the fence and the
      `\w` language tag after it are removed and the rest trimmed); otherwise
      the line itself as a paragraph unless it is all white space. */
  function ClassifyLine(line: String): Block
  {
    if line != [] && line[0] == '#' then HeadingLine(line)
    else if Fence <= line then CodeLine(line)
    else if Trim(line) != [] then Paragraph(line)
    else Blank
  }

  /** A heading line: the level from the leading number signs, the text
      after them and the white space that follows. */
  function HeadingLine(line: String): Block
  {
    var n := RunLength(line, '#');
    Heading(Min(n, MaxHeadingLevel), TrimStart(line[n..]))
  }

  /** A code line: what follows the fence and its language tag, trimmed. */
  function CodeLine(line: String): Block
    requires Fence <= line
  {
    var rest := line[|Fence|..];
    Code(Trim(rest[WordRunLength(rest)..]))
  }

  /** Which kind of block a line gives: a heading exactly when it starts with
      `#`, at a level from one to six; a code line exactly when it starts with
      the fence and not with `#`; a line break exactly when it is neither and
      is all white space; otherwise the line itself. Heading and code text
      never starts with white space. */
  lemma ClassifyLineKinds(line: String)
    ensures ClassifyLine(line).Heading? <==> line != [] && line[0] == '#'
    ensures ClassifyLine(line).Heading? ==> 1 <= ClassifyLine(line).level <= MaxHeadingLevel
    ensures ClassifyLine(line).Code? <==> Fence <= line
    ensures ClassifyLine(line).Paragraph? ==> ClassifyLine(line).text == line
    ensures ClassifyLine(line).Blank? <==> !(Fence <= line) && AllSpace(line)
    ensures (ClassifyLine(line).Heading? || ClassifyLine(line).Code?) ==>
              ClassifyLine(line).text == [] || !IsSpace(ClassifyLine(line).text[0])
  {
    if line != [] && line[0] == '#' {
      var n := RunLength(line, '#');
      RunLengthRun(line, '#');
      LeadingSpaceRun(line[n..]);
      assert n >= 1;
    } else if Fence <= line {
      assert line[0] == Fence[0] == '`';
    } else {
      TrimEmptyIff(line);
    }
  }

  /** A heading's level and text come from the match of `/^#+\s*`: the level
      is the number of leading number signs (at most six), and the text is
      everything after the match. */
  lemma HeadingFromMatch(line: String)
    requires line != [] && line[0] == '#'
    ensures exists hashes, spaces ::
              && HeadingPrefix(line, hashes, spaces)
              && ClassifyLine(line) == Heading(Min(hashes, MaxHeadingLevel), line[hashes + spaces..])
  {
    var n := RunLength(line, '#');
    var after := line[n..];
    var w := LeadingSpace(after);
    RunLengthRun(line, '#');
    LeadingSpaceRun(after);
    var run := line[n..n + w];
    forall i | 0 <= i < w
      ensures IsSpace(run[i])
    {
      assert run[i] == after[i];
    }
    assert n + w < |line| ==> line[n + w] == after[w];
    assert after[w..] == line[n + w..];
    assert HeadingPrefix(line, n, w);
  }

  /** The match of the pattern ```\w* at the start of a code line: the fence and a
      language tag of `tag` word characters, as long as it can be. */
  ghost predicate FenceTag(line: String, tag: nat)
  {
    && Fence <= line && |Fence| + tag <= |line|
    && (forall k :: |Fence| <= k < |Fence| + tag ==> IsWordChar(line[k]))
    && (|Fence| + tag == |line| || !IsWordChar(line[|Fence| + tag]))
  }

  /** A code line shows what follows the fence and its language tag, trimmed. */
  lemma CodeFromFence(line: String)
    requires Fence <= line
    ensures exists tag :: FenceTag(line, tag) && ClassifyLine(line) == Code(Trim(line[|Fence| + tag..]))
  {
    var rest := line[|Fence|..];
    var tag := WordRunLength(rest);
    WordRun(rest);
    assert line[0] == Fence[0] == '`';
    assert rest[tag..] == line[|Fence| + tag..];
    forall k | |Fence| <= k < |Fence| + tag
      ensures IsWordChar(line[k])
    {
      assert line[k] == rest[k - |Fence|];
    }
    assert |Fence| + tag < |line| ==> line[|Fence| + tag] == rest[tag];
    assert FenceTag(line, tag);
  }

  /** `lines.map(...)`: each line classified on its own. */
  function ClassifyAll(lines: seq<String>): (r: seq<Block>)
    ensures |r| == |lines|
    ensures forall i :: 0 <= i < |lines| ==> r[i] == ClassifyLine(lines[i])
  {
    seq(|lines|, i requires 0 <= i < |lines| => ClassifyLine(lines[i]))
  }

  /** Classifying two runs of lines is classifying each. */
  lemma ClassifyAllAppend(xs: seq<String>, ys: seq<String>)
    ensures ClassifyAll(xs + ys) == ClassifyAll(xs) + ClassifyAll(ys)
  {
    var l, r := ClassifyAll(xs + ys), ClassifyAll(xs) + ClassifyAll(ys);
    forall i | 0 <= i < |l|
      ensures l[i] == r[i]
    {
      if i < |xs| {
        assert (xs + ys)[i] == xs[i];
      } else {
        assert (xs + ys)[i] == ys[i - |xs|];
      }
    }
  }

  /** `content.split('\n').map(...)`: one block per line. */
  function Render(content: String): seq<Block>
  {
    ClassifyAll(Split(content, '\n'))
  }

  /** One block more than there are line breaks. */
  lemma RenderLength(content: String)
    ensures |Render(content)| == Count(content, '\n') + 1
  {
    SplitCount(content, '\n');
  }

  /** A line without a line break renders as exactly its own block. */
  lemma RenderLine(line: String)
    requires '\n' !in line
    ensures Render(line) == [ClassifyLine(line)]
  {
    SplitSingle(line, '\n');
  }

  /** No state carries from one line to the next: the blocks of two pieces of
      content joined by a line break are the blocks of each, in order. */
  lemma RenderAppend(a: String, b: String)
    ensures Render(a + "\n" + b) == Render(a) + Render(b)
  {
    SplitAppend(a, b, '\n');
    ClassifyAllAppend(Split(a, '\n'), Split(b, '\n'));
  }

  /** Each block is the classification of the line at the same position. */
  lemma RenderAt(content: String, i: nat)
    requires i < |Render(content)|
    ensures i < |Split(content, '\n')|
    ensures Render(content)[i] == ClassifyLine(Split(content, '\n')[i])
  {
  }

  /** A line that starts with neither `#` nor the fence and has a character
      that is not white space is shown as it is. */
  lemma PlainLine(line: String, k: nat)
    requires line != [] && line[0] != '#' && line[0] != '`'
    requires k < |line| && !IsSpace(line[k])
    ensures ClassifyLine(line) == Paragraph(line)
  {
    assert !(Fence <= line) by {
      assert line[0] != Fence[0];
    }
    TrimEmptyIff(line);
  }

  lemma TitleLine()
    ensures ClassifyLine("# Title") == Heading(1, "Title")
  {
    var line := "# Title";
    assert RunLength(line[1..], '#') == 0;
    assert RunLength(line, '#') == 1;
    var after := line[1..];
    assert after == " Title";
    assert LeadingSpace(after[1..]) == 0 by {
      assert !IsSpace(after[1]);
    }
    assert LeadingSpace(after) == 1;
    assert after[1..] == "Title";
  }

  /** Three lines give three blocks, each classified on its own. */
  lemma RenderThreeLines(a: String, b: String, c: String)
    requires '\n' !in a && '\n' !in b && '\n' !in c
    ensures Render(a + "\n" + b + "\n" + c) == [ClassifyLine(a), ClassifyLine(b), ClassifyLine(c)]
  {
    SplitThree(a, b, c, '\n');
    var r := ClassifyAll([a, b, c]);
    assert r[0] == ClassifyLine(a) && r[1] == ClassifyLine(b) && r[2] == ClassifyLine(c);
  }

  lemma EmptyLineIsBlank()
    ensures ClassifyLine("") == Blank
  {
  }

  lemma SomeTextLine()
    ensures ClassifyLine("Some text") == Paragraph("Some text")
  {
    PlainLine("Some text", 0);
  }

  /** A heading, an empty line and a paragraph. */
  lemma RenderTitleAndText()
    ensures Render("# Title" + "\n" + "" + "\n" + "Some text") == [Heading(1, "Title"), Blank, Paragraph("Some text")]
  {
    RenderThreeLines("# Title", "", "Some text");
    TitleLine();
    EmptyLineIsBlank();
    SomeTextLine();
  }

  /** A preprocessor line inside a C++ sample starts with `#`, so it is shown
      as a first-level heading; the heading test comes before everything else. */
  lemma IncludeLineIsHeading()
    ensures ClassifyLine("#include <emscripten/bind.h>") == Heading(1, "include <emscripten/bind.h>")
  {
    var line := "#include <emscripten/bind.h>";
    var after := line[1..];
    assert after == "include <emscripten/bind.h>";
    assert RunLength(after, '#') == 0;
    assert RunLength(line, '#') == 1;
    assert LeadingSpace(after) == 0 by {
      assert !IsSpace(after[0]);
    }
  }

  /** The fence and the longest run of word characters after it are removed
      and the rest is trimmed. */
  lemma FenceDispatch(line: String)
    requires Fence <= line
    ensures ClassifyLine(line) == CodeLine(line)
  {
    assert line[0] == Fence[0] == '`';
  }

  lemma CodeLineTag(line: String, tag: nat)
    requires FenceTag(line, tag)
    ensures CodeLine(line) == Code(Trim(line[|Fence| + tag..]))
  {
    var rest := line[|Fence|..];
    forall i | 0 <= i < tag
      ensures IsWordChar(rest[i])
    {
      assert rest[i] == line[|Fence| + i];
    }
    assert tag == |rest| || rest[tag] == line[|Fence| + tag];
    WordRunUnique(rest, tag);
    assert rest[tag..] == line[|Fence| + tag..];
  }

  lemma FenceLine(line: String, tag: nat, code: String)
    requires FenceTag(line, tag)
    requires Trim(line[|Fence| + tag..]) == code
    ensures ClassifyLine(line) == Code(code)
  {
    FenceDispatch(line);
    CodeLineTag(line, tag);
  }

  /** The language tag stops at the first non-word character: "```c++" shows
      the code "++". */
  lemma CppFenceShowsPlusPlus()
    ensures ClassifyLine("```c++") == Code("++")
  {
    assert FenceTag("```c++", 1) by {
      assert IsWordChar("```c++"[3]) && !IsWordChar("```c++"[4]);
    }
    assert "```c++"[4..] == "++";
    TrimOfTrimmed("++");
    FenceLine("```c++", 1, "++");
  }

  lemma JsxFenceLine()
    ensures ClassifyLine("```jsx") == Code("")
  {
    var line := "```jsx";
    assert FenceTag(line, 3) by {
      assert IsWordChar(line[3]) && IsWordChar(line[4]) && IsWordChar(line[5]);
    }
    assert line[6..] == [];
    FenceLine(line, 3, "");
  }

  lemma BareFenceLine()
    ensures ClassifyLine("```") == Code("")
  {
    assert "```"[3..] == [];
    FenceLine("```", 0, "");
  }

  /** A line of the C++ sample in the WebAssembly post. */
  lemma SampleBodyLine()
    ensures ClassifyLine("int fibonacci(int n) {") == Paragraph("int fibonacci(int n) {")
  {
    PlainLine("int fibonacci(int n) {", 0);
  }

  /** A fenced sample is not grouped: the opening fence, every line inside and
      the closing fence each give a block of their own. */
  lemma FencedSampleIsPerLine()
    ensures Render("```c++" + "\n" + "int fibonacci(int n) {" + "\n" + "```")
         == [Code("++"), Paragraph("int fibonacci(int n) {"), Code("")]
  {
    RenderThreeLines("```c++", "int fibonacci(int n) {", "```");
    CppFenceShowsPlusPlus();
    BareFenceLine();
    SampleBodyLine();
  }
}
