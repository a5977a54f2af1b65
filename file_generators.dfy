/**
 * The three export formats of the document generator: a DOCX document whose
 * paragraphs come from a line-by-line reading of the markdown, a PDF of the
 * markdown stripped to plain text, and the markdown itself as UTF-8.
 * The DOCX packer and the PDF layout engine are parameters.
 */
module FileGenerators {
  import opened Common
  import opened JsString
  import opened Utf8

  /** A generated file: its bytes, its download name and its MIME type. */
  datatype GeneratedFile = GeneratedFile(buffer: seq<byte>, filename: string, contentType: string)

  const PdfContentType := "application/pdf"
  const DocxContentType := "application/vnd.openxmlformats-officedocument.wordprocessingml.document"
  const MarkdownContentType := "text/markdown"
  const DocxFailurePrefix := "Failed to generate DOCX: "
  const PdfTitle := "Product Documentation"

  // ---------------------------------------------------------------------------
  // DOCX: one paragraph per line

  datatype HeadingLevel = Heading1 | Heading2 | Heading3

  /** The paragraph a markdown line becomes. */
  datatype Paragraph =
    | EmptyParagraph                              // `new Paragraph({})`
    | Heading(level: HeadingLevel, text: string)  // `text` with `heading: HEADING_n`
    | BoldRun(text: string)                       // one `TextRun` with `bold: true`
    | PlainParagraph(text: string)                // `text: line`

  /** The paragraph `generateDOCX` makes of one line: the first test the line passes decides. */
  function ClassifyLine(line: string): Paragraph
  {
    if Trim(line) == "" then EmptyParagraph else ClassifyMarked(line)
  }

  /** The heading, bold and plain tests, for a line that is not blank. */
  function ClassifyMarked(line: string): (p: Paragraph)
    ensures !p.EmptyParagraph?
  {
    if StartsWith(line, "# ") then Heading(Heading1, Substring(line, 2, |line|))
    else if StartsWith(line, "## ") then Heading(Heading2, Substring(line, 3, |line|))
    else if StartsWith(line, "### ") then Heading(Heading3, Substring(line, 4, |line|))
    else if StartsWith(line, "**") && EndsWith(line, "**") then BoldRun(Substring(line, 2, |line| - 2))
    else PlainParagraph(line)
  }

  /** Exactly the lines made of white space alone, the empty line included, become empty paragraphs. */
  lemma ClassifyBlank(line: string)
    ensures ClassifyLine(line).EmptyParagraph? <==> AllWhitespace(line)
    ensures !AllWhitespace(line) ==> ClassifyLine(line) == ClassifyMarked(line)
  {
    TrimEmptyIff(line);
  }

  /** A line whose first character is not white space is classified by its markers. */
  lemma NotBlank(line: string)
    requires line != "" && !IsJsWhitespace(line[0])
    ensures ClassifyLine(line) == ClassifyMarked(line)
  {
    ClassifyBlank(line);
  }

  /** The markdown a paragraph stands for: the inverse reading of `ClassifyLine`. */
  function Markup(p: Paragraph): string
  {
    match p
    case EmptyParagraph => ""
    case Heading(Heading1, text) => "# " + text
    case Heading(Heading2, text) => "## " + text
    case Heading(Heading3, text) => "### " + text
    case BoldRun(text) => "**" + text + "**"
    case PlainParagraph(text) => text
  }

  /** The three heading prefixes exclude one another. */
  lemma HeadingPrefixesExclusive(line: string)
    ensures !(StartsWith(line, "# ") && StartsWith(line, "## "))
    ensures !(StartsWith(line, "# ") && StartsWith(line, "### "))
    ensures !(StartsWith(line, "## ") && StartsWith(line, "### "))
  {
    if StartsWith(line, "## ") { assert line[1] == "## "[1]; }
    if StartsWith(line, "### ") { assert line[1] == "### "[1] && line[2] == "### "[2]; }
  }

  /**
   * Every line that is not blank reads back from its paragraph, except the
   * bold lines too short to hold both markers (`**` and `***`).
   */
  lemma ClassifyLineMarkup(line: string)
    requires !AllWhitespace(line)
    requires !(StartsWith(line, "**") && EndsWith(line, "**") && |line| < 4)
    ensures Markup(ClassifyLine(line)) == line
  {
    ClassifyBlank(line);
    MarkedMarkup(line);
  }

  lemma MarkedMarkup(line: string)
    requires !(StartsWith(line, "**") && EndsWith(line, "**") && |line| < 4)
    ensures Markup(ClassifyMarked(line)) == line
  {
    HeadingPrefixesExclusive(line);
    var p := ClassifyMarked(line);
    if StartsWith(line, "# ") {
      assert p == Heading(Heading1, line[2..]);
      assert line == line[..2] + line[2..];
    } else if StartsWith(line, "## ") {
      assert p == Heading(Heading2, line[3..]);
      assert line == line[..3] + line[3..];
    } else if StartsWith(line, "### ") {
      assert p == Heading(Heading3, line[4..]);
      assert line == line[..4] + line[4..];
    } else if StartsWith(line, "**") && EndsWith(line, "**") {
      assert p == BoldRun(line[2..|line| - 2]);
      assert line == line[..2] + line[2..|line| - 2] + line[|line| - 2..];
    }
  }

  /** A line of the form `# text` is a first-level heading with `text`. */
  lemma ClassifyHeading1(text: string)
    ensures ClassifyLine("# " + text) == Heading(Heading1, text)
  {
    var line := "# " + text;
    NotBlank(line);
    assert line[..2] == "# " && line[2..] == text;
  }

  /** `## text` is a second-level heading, never a first-level one. */
  lemma ClassifyHeading2(text: string)
    ensures ClassifyLine("## " + text) == Heading(Heading2, text)
  {
    var line := "## " + text;
    NotBlank(line);
    assert line[1] == '#' && line[..3] == "## " && line[3..] == text;
  }

  /** `### text` is a third-level heading. */
  lemma ClassifyHeading3(text: string)
    ensures ClassifyLine("### " + text) == Heading(Heading3, text)
  {
    var line := "### " + text;
    NotBlank(line);
    assert line[1] == '#' && line[2] == '#' && line[..4] == "### " && line[4..] == text;
  }

  /** A hash without the following space is not a heading. */
  lemma ClassifyHashWithoutSpace()
    ensures ClassifyLine("#x") == PlainParagraph("#x")
  {
    NotBlank("#x");
  }

  /** A line wrapped in `**` markers becomes one bold run holding the text between them. */
  lemma ClassifyBold(t: string)
    ensures ClassifyLine("**" + t + "**") == BoldRun(t)
  {
    var line := "**" + t + "**";
    NotBlank(line);
    assert line[..2] == "**";
    assert line[|line| - 2..] == "**";
    assert line[2..|line| - 2] == t;
  }

  /** The bold test has no length guard: `substring` swaps reversed bounds. */
  lemma ClassifyShortBold()
    ensures ClassifyLine("**") == BoldRun("**")
    ensures ClassifyLine("***") == BoldRun("*")
    ensures ClassifyLine("****") == BoldRun("")
  {
    ClassifyTwoStars();
    ClassifyThreeStars();
    ClassifyFourStars();
  }

  lemma ClassifyTwoStars()
    ensures ClassifyLine("**") == BoldRun("**")
  {
    NotBlank("**");
  }

  lemma ClassifyThreeStars()
    ensures ClassifyLine("***") == BoldRun("*")
  {
    NotBlank("***");
    assert "***"[1..2] == "*";
  }

  lemma ClassifyFourStars()
    ensures ClassifyLine("****") == BoldRun("")
  {
    NotBlank("****");
  }

  /** Lines are split on `\n` alone: a bold line ending in `\r` stays plain. */
  lemma ClassifyBoldWithCarriageReturn()
    ensures ClassifyLine("**x**\r") == PlainParagraph("**x**\r")
  {
    NotBlank("**x**\r");
    assert "**x**\r"[4..] != "**";
  }

  /** The paragraphs of a document: one per `\n`-separated line, in order. */
  function DocxParagraphs(content: string): (ps: seq<Paragraph>)
    ensures |ps| == |Split(content, '\n')| == Count(content, '\n') + 1
    ensures forall k :: 0 <= k < |ps| ==> ps[k] == ClassifyLine(Split(content, '\n')[k])
  {
    SplitCount(content, '\n');
    var lines := Split(content, '\n');
    seq(|lines|, k requires 0 <= k < |lines| => ClassifyLine(lines[k]))
  }

  /** The loop of `generateDOCX` that pushes one paragraph per line. */
  method BuildParagraphs(content: string) returns (paragraphs: seq<Paragraph>)
    ensures paragraphs == DocxParagraphs(content)
  {
    var lines := Split(content, '\n');
    ghost var spec := DocxParagraphs(content);
    paragraphs := [];
    var i := 0;
    while i < |lines|
      invariant 0 <= i <= |lines| == |spec|
      invariant paragraphs == spec[..i]
    {
      var p := ClassifyLine(lines[i]);
      assert p == spec[i];
      assert spec[..i + 1] == spec[..i] + [p];
      paragraphs := paragraphs + [p];
      i := i + 1;
    }
    assert spec[..i] == spec;
  }

  /** The markdown of a document is recovered line by line from its paragraphs, except blank lines and `**`, `***`. */
  lemma DocxParagraphsMarkup(content: string, k: nat)
    requires k < |DocxParagraphs(content)|
    requires !AllWhitespace(Split(content, '\n')[k])
    requires var l := Split(content, '\n')[k]; !(StartsWith(l, "**") && EndsWith(l, "**") && |l| < 4)
    ensures Markup(DocxParagraphs(content)[k]) == Split(content, '\n')[k]
  {
    ClassifyLineMarkup(Split(content, '\n')[k]);
  }

  /**
   * `generateDOCX(content, filename)`: `packer` stands for `Packer.toBuffer`
   * on a one-section document of the paragraphs; its failure is rethrown with
   * the DOCX prefix.
   */
  function DocxFile(content: string, filename: string, packer: seq<Paragraph> -> Result<seq<byte>>): (r: Result<GeneratedFile>)
    ensures r.Ok? <==> packer(DocxParagraphs(content)).Ok?
    ensures r.Ok? ==> r.value == GeneratedFile(packer(DocxParagraphs(content)).value, filename + ".docx", DocxContentType)
    ensures r.Err? ==> r.message == DocxFailurePrefix + packer(DocxParagraphs(content)).message
  {
    match packer(DocxParagraphs(content))
    case Ok(bytes) => Ok(GeneratedFile(bytes, filename + ".docx", DocxContentType))
    case Err(message) => Err(DocxFailurePrefix + message)
  }

  /** The statements of `generateDOCX`: the paragraph loop, then the packer. */
  method GenerateDocx(content: string, filename: string, packer: seq<Paragraph> -> Result<seq<byte>>)
    returns (r: Result<GeneratedFile>)
    ensures r == DocxFile(content, filename, packer)
  {
    var paragraphs := BuildParagraphs(content);
    var packed := packer(paragraphs);
    if packed.Ok? {
      r := Ok(GeneratedFile(packed.value, filename + ".docx", DocxContentType));
    } else {
      r := Err(DocxFailurePrefix + packed.message);
    }
  }

  // ---------------------------------------------------------------------------
  // PDF: markdown reduced to plain text

  /** The characters `/[#*`_]/g` deletes. */
  predicate IsMarkdownMark(c: char)
  {
    c == '#' || c == '*' || c == '`' || c == '_'
  }

  /** `content.replace(/[#*`_]/g, '')`. */
  function StripMarks(s: string): (r: string)
    ensures |r| <= |s|
    ensures forall k :: 0 <= k < |r| ==> !IsMarkdownMark(r[k])
  {
    if s == "" then ""
    else if IsMarkdownMark(s[0]) then StripMarks(s[1..])
    else [s[0]] + StripMarks(s[1..])
  }

  /** Deletion works character by character: it distributes over concatenation. */
  lemma {:induction false} StripMarksConcat(s: string, t: string)
    ensures StripMarks(s + t) == StripMarks(s) + StripMarks(t)
    decreases |s|
  {
    if s == "" {
      assert s + t == t;
    } else {
      assert (s + t)[0] == s[0] && (s + t)[1..] == s[1..] + t;
      StripMarksConcat(s[1..], t);
      if !IsMarkdownMark(s[0]) {
        assert StripMarks(s + t) == [s[0]] + (StripMarks(s[1..]) + StripMarks(t));
      }
    }
  }

  /** Text without marks is kept exactly, so only marks are removed. */
  lemma {:induction false} StripMarksKeeps(s: string)
    requires forall k :: 0 <= k < |s| ==> !IsMarkdownMark(s[k])
    ensures StripMarks(s) == s
    decreases |s|
  {
    if s != "" { StripMarksKeeps(s[1..]); }
  }

  /** A single mark disappears; any other character stays. */
  lemma StripMarksChar(c: char)
    ensures StripMarks([c]) == if IsMarkdownMark(c) then "" else [c]
  {
    assert [c][1..] == "";
  }

  /** `s.replace(/\n\n/g, '\n')`: non-overlapping pairs of newlines, left to right, become one newline. */
  function CollapsePairs(s: string): (r: string)
    ensures |r| <= |s|
    decreases |s|
  {
    if |s| >= 2 && s[0] == '\n' && s[1] == '\n' then "\n" + CollapsePairs(s[2..])
    else if s == "" then ""
    else [s[0]] + CollapsePairs(s[1..])
  }

  /** A character other than a newline is kept, and collapsing goes on after it. */
  lemma CollapseKeepsChar(c: char, rest: string)
    requires c != '\n'
    ensures CollapsePairs([c] + rest) == [c] + CollapsePairs(rest)
  {
    assert ([c] + rest)[1..] == rest;
  }

  /** `k` consecutive newlines. */
  function Newlines(k: nat): (r: string)
    ensures |r| == k
  {
    if k == 0 then "" else "\n" + Newlines(k - 1)
  }

  /** A leading pair of newlines becomes one newline. */
  lemma CollapseLeadingPair(t: string)
    ensures CollapsePairs("\n" + ("\n" + t)) == "\n" + CollapsePairs(t)
  {
    var s := "\n" + ("\n" + t);
    assert s[2..] == t;
  }

  /** A lone leading newline is kept. */
  lemma CollapseLoneNewline(rest: string)
    requires rest == "" || rest[0] != '\n'
    ensures CollapsePairs("\n" + rest) == "\n" + CollapsePairs(rest)
  {
    var s := "\n" + rest;
    assert s[1..] == rest;
  }

  /** A run of `k` newlines ending at a character that is not a newline shrinks to ceil(k/2) newlines. */
  lemma {:induction false} CollapseRun(k: nat, rest: string)
    requires rest == "" || rest[0] != '\n'
    ensures CollapsePairs(Newlines(k) + rest) == Newlines((k + 1) / 2) + CollapsePairs(rest)
    decreases k, 1
  {
    if k >= 2 {
      CollapseRunPair(k, rest);
    } else if k == 1 {
      assert Newlines(k) + rest == "\n" + rest;
      CollapseLoneNewline(rest);
    } else {
      assert Newlines(k) + rest == rest;
    }
  }

  /** The step of `CollapseRun` for a run of two or more: the leading pair becomes one newline. */
  lemma {:induction false} CollapseRunPair(k: nat, rest: string)
    requires k >= 2
    requires rest == "" || rest[0] != '\n'
    ensures CollapsePairs(Newlines(k) + rest) == Newlines((k + 1) / 2) + CollapsePairs(rest)
    decreases k, 0
  {
    var t := Newlines(k - 2) + rest;
    var h := (k - 1) / 2;
    calc {
      CollapsePairs(Newlines(k) + rest);
    == { NewlinesTwoMore(k, rest); }
      CollapsePairs("\n" + ("\n" + t));
    == { CollapseLeadingPair(t); }
      "\n" + CollapsePairs(t);
    == { CollapseRun(k - 2, rest); }
      "\n" + (Newlines(h) + CollapsePairs(rest));
    == { NewlinesOneMore(h, CollapsePairs(rest)); }
      Newlines(h + 1) + CollapsePairs(rest);
    }
    assert h + 1 == (k + 1) / 2;
  }

  lemma NewlinesTwoMore(k: nat, rest: string)
    requires k >= 2
    ensures Newlines(k) + rest == "\n" + ("\n" + (Newlines(k - 2) + rest))
  {
    assert Newlines(k) == "\n" + ("\n" + Newlines(k - 2));
  }

  lemma NewlinesOneMore(h: nat, c: string)
    ensures "\n" + (Newlines(h) + c) == Newlines(h + 1) + c
  {
    assert Newlines(h + 1) == "\n" + Newlines(h);
  }

  /** Text in which no newline follows a newline passes unchanged. */
  lemma {:induction false} CollapseNoPair(s: string)
    requires forall k :: 0 <= k < |s| - 1 ==> !(s[k] == '\n' && s[k + 1] == '\n')
    ensures CollapsePairs(s) == s
    decreases |s|
  {
    if s != "" {
      assert !(|s| >= 2 && s[0] == '\n' && s[1] == '\n') by {
        if |s| >= 2 { assert !(s[0] == '\n' && s[0 + 1] == '\n'); }
      }
      assert forall k :: 0 <= k < |s[1..]| - 1 ==> !(s[1..][k] == '\n' && s[1..][k + 1] == '\n') by {
        forall k | 0 <= k < |s[1..]| - 1 ensures !(s[1..][k] == '\n' && s[1..][k + 1] == '\n') {
          assert !(s[k + 1] == '\n' && s[(k + 1) + 1] == '\n');
        }
      }
      CollapseNoPair(s[1..]);
    }
  }

  /** Collapsing introduces no character: every character of the result occurs in the input. */
  lemma {:induction false} CollapseIntroducesNothing(s: string)
    ensures forall k :: 0 <= k < |CollapsePairs(s)| ==> CollapsePairs(s)[k] in s
    decreases |s|
  {
    if |s| >= 2 && s[0] == '\n' && s[1] == '\n' {
      CollapseIntroducesNothing(s[2..]);
      var r := CollapsePairs(s);
      forall k | 0 <= k < |r| ensures r[k] in s {
        if k > 0 { assert r[k] == CollapsePairs(s[2..])[k - 1]; assert r[k] in s[2..]; }
      }
    } else if s != "" {
      CollapseIntroducesNothing(s[1..]);
      var r := CollapsePairs(s);
      forall k | 0 <= k < |r| ensures r[k] in s {
        if k > 0 { assert r[k] == CollapsePairs(s[1..])[k - 1]; assert r[k] in s[1..]; }
      }
    }
  }

  /** The text `generatePDF` lays out under the title. */
  function PlainText(content: string): (text: string)
    ensures forall k :: 0 <= k < |text| ==> !IsMarkdownMark(text[k])
    ensures |text| <= |content|
  {
    var stripped := StripMarks(content);
    CollapseIntroducesNothing(stripped);
    assert forall k :: 0 <= k < |CollapsePairs(stripped)| ==> !IsMarkdownMark(CollapsePairs(stripped)[k]) by {
      forall k | 0 <= k < |CollapsePairs(stripped)| ensures !IsMarkdownMark(CollapsePairs(stripped)[k]) {
        var c := CollapsePairs(stripped)[k];
        assert c in stripped;
        var j :| 0 <= j < |stripped| && stripped[j] == c;
      }
    }
    CollapsePairs(stripped)
  }

  /** Deletion runs first: a blank line made of marks alone still collapses with its neighbours. */
  lemma PlainTextDeletesBeforeCollapsing()
    ensures PlainText("a\n#\nb") == "a\nb"
  {
    calc {
      PlainText("a\n#\nb");
      CollapsePairs(StripMarks("a\n#\nb"));
    == { StripMarkLine(); }
      CollapsePairs("a\n\nb");
    == { CollapseBlankLine(); }
      "a\nb";
    }
  }

  lemma StripMarkLine()
    ensures StripMarks("a\n#\nb") == "a\n\nb"
  {
    calc {
      StripMarks("a\n#\nb");
    == { assert "a\n#\nb"[1..] == "\n#\nb"; }
      "a" + StripMarks("\n#\nb");
    == { assert "\n#\nb"[1..] == "#\nb"; }
      "a" + ("\n" + StripMarks("#\nb"));
    == { assert "#\nb"[1..] == "\nb"; }
      "a" + ("\n" + StripMarks("\nb"));
    == { assert "\nb"[1..] == "b"; StripMarksChar('b'); }
      "a" + ("\n" + ("\n" + "b"));
    }
  }

  lemma CollapseBlankLine()
    ensures CollapsePairs("a\n\nb") == "a\nb"
  {
    assert "a\n\nb"[1..] == "\n\nb" && "\n\nb"[2..] == "b";
  }

  /** What the PDF page holds: the centred title at size 20, then the plain text at size 12. */
  datatype PdfLayout = PdfLayout(title: string, titleSize: nat, body: string, bodySize: nat)

  function PdfPage(content: string): (page: PdfLayout)
    ensures page.title == PdfTitle && page.body == PlainText(content)
  {
    PdfLayout(PdfTitle, 20, PlainText(content), 12)
  }

  /**
   * `generatePDF(content, filename)`: `render` stands for pdfkit producing the
   * bytes of a page; its error rejects the promise unchanged.
   */
  function GeneratePdf(content: string, filename: string, render: PdfLayout -> Result<seq<byte>>): (r: Result<GeneratedFile>)
    ensures r.Ok? <==> render(PdfPage(content)).Ok?
    ensures r.Ok? ==> r.value.filename == filename + ".pdf" && r.value.contentType == PdfContentType
    ensures r.Ok? ==> r.value.buffer == render(PdfPage(content)).value
    ensures r.Err? ==> r.message == render(PdfPage(content)).message
  {
    match render(PdfPage(content))
    case Ok(bytes) => Ok(GeneratedFile(bytes, filename + ".pdf", PdfContentType))
    case Err(message) => Err(message)
  }

  // ---------------------------------------------------------------------------
  // Markdown

  /** `generateMarkdown(content, filename)`: the content's UTF-8 bytes, named `<filename>.md`. */
  function GenerateMarkdown(content: string, filename: string): (file: GeneratedFile)
    ensures file.buffer == Encode(content)
    ensures |content| <= |file.buffer| <= 4 * |content|
    ensures file.filename == filename + ".md" && file.contentType == MarkdownContentType
  {
    GeneratedFile(Encode(content), filename + ".md", MarkdownContentType)
  }

  /** The markdown file decodes back to the content as UTF-8. */
  lemma MarkdownRoundTrip(content: string, filename: string)
    ensures Decode(GenerateMarkdown(content, filename).buffer) == Some(content)
  {
    DecodeEncode(content);
  }
}
