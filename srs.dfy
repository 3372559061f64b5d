/** The SRS generator: renders a requirements value as a Markdown document
    and as a word-processor document, and names the files it writes.
    Markdown is described as a list of blocks, each of which renders to a
    fixed piece of text; the document is the blocks' texts in order. */
module Srs {
  import opened Wrappers
  import opened Text
  import opened Json

  // ---------------------------------------------------------------------
  // Markdown blocks

  datatype Block =
    | Heading(level: nat, text: string)   // "## text" and a blank line
    | Para(text: string)                  // text and a blank line
    | Field(name: string, text: string)   // "**name:** text" and a blank line
    | Bullet(text: string)                // "- text"
    | Line(text: string)                  // text on a line of its own
    | Blank                               // an empty line
    | Rule                                // "---" and a blank line

  function Hashes(n: nat): (s: string)
    ensures |s| == n
  {
    seq(n, _ => '#')
  }

  function RenderBlock(b: Block): string {
    match b
    case Heading(level, text) => Hashes(level) + " " + text + "\n\n"
    case Para(text) => text + "\n\n"
    case Field(name, text) => "**" + name + ":** " + text + "\n\n"
    case Bullet(text) => "- " + text + "\n"
    case Line(text) => text + "\n"
    case Blank => "\n"
    case Rule => "---\n\n"
  }

  /** The text of a list of blocks, rendered from the last one back. */
  function Render(bs: seq<Block>): string {
    if bs == [] then "" else Render(bs[..|bs| - 1]) + RenderBlock(bs[|bs| - 1])
  }

  /** Rendering distributes over concatenation of block lists. */
  lemma {:induction false} RenderAppend(a: seq<Block>, b: seq<Block>)
    ensures Render(a + b) == Render(a) + Render(b)
  {
    if b != [] {
      var ab := a + b;
      var init := b[..|b| - 1];
      assert ab[..|ab| - 1] == a + init;
      assert ab[|ab| - 1] == b[|b| - 1];
      RenderAppend(a, init);
    } else {
      assert a + b == a;
    }
  }

  /** The texts of the second-level headings, in order. */
  function TopHeadings(bs: seq<Block>): seq<string> {
    if bs == [] then []
    else
      var b := bs[|bs| - 1];
      TopHeadings(bs[..|bs| - 1]) + (if b.Heading? && b.level == 2 then [b.text] else [])
  }

  lemma {:induction false} TopHeadingsAppend(a: seq<Block>, b: seq<Block>)
    ensures TopHeadings(a + b) == TopHeadings(a) + TopHeadings(b)
  {
    if b != [] {
      var ab := a + b;
      assert ab[..|ab| - 1] == a + b[..|b| - 1];
      TopHeadingsAppend(a, b[..|b| - 1]);
    } else {
      assert a + b == a;
    }
  }

  predicate IsTop(b: Block) {
    b.Heading? && b.level == 2
  }

  /** No block of `bs` is a second-level heading. */
  predicate NoTop(bs: seq<Block>) {
    forall i :: 0 <= i < |bs| ==> !IsTop(bs[i])
  }

  lemma {:induction false} NoTopHeadings(bs: seq<Block>)
    requires NoTop(bs)
    ensures TopHeadings(bs) == []
  {
    if bs != [] {
      NoTopHeadings(bs[..|bs| - 1]);
    }
  }

  // ---------------------------------------------------------------------
  // The fixed parts of the Markdown document

  const DocumentTitle := "Software Requirements Specification (SRS)"

  const TocLines := [
    "1. [Introduction](#introduction)",
    "2. [Project Overview](#project-overview)",
    "3. [Functional Requirements](#functional-requirements)",
    "4. [Non-Functional Requirements](#non-functional-requirements)",
    "5. [Technical Requirements](#technical-requirements)",
    "6. [UI/UX Requirements](#ui-ux-requirements)",
    "7. [Issues and Concerns](#issues-and-concerns)"]

  const IntroText := "This Software Requirements Specification (SRS) document was automatically generated from "
                     + "meeting recordings using AI-powered analysis. It combines audio transcription and visual "
                     + "content analysis to extract comprehensive project requirements."

  /** Title, project information, table of contents and introduction. */
  function Preamble(projectName: string, timestamp: string): seq<Block> {
    [Heading(1, DocumentTitle),
     Para("**Project:** " + projectName + "  \n**Date Generated:** " + timestamp + "  \n**Version:** 1.0"),
     Rule,
     Heading(2, "Table of Contents"),
     Para(JoinWith("\n", TocLines)),
     Rule,
     Heading(2, "1. Introduction"),
     Para(IntroText),
     Rule]
  }

  const GeneratedByLine := "**Generated By:** Meeting Analyzer Tool"
  const SourceLine := "**Source:** Automated analysis of meeting video and audio"
  const MethodLine := "**Analysis Method:** AI-powered transcription and visual content analysis"
  const ReviewNote := "This document was automatically generated and should be reviewed and refined by the project team."

  function Appendix(): seq<Block> {
    [Rule,
     Heading(2, "Appendix"),
     Heading(3, "Document Information"),
     Bullet(GeneratedByLine),
     Bullet(SourceLine),
     Bullet(MethodLine),
     Blank,
     Heading(3, "Notes"),
     Line(ReviewNote)]
  }

  // ---------------------------------------------------------------------
  // The six requirement sections

  const SectionCount := 6

  const Titles := [
    "2. Project Overview",
    "3. Functional Requirements",
    "4. Non-Functional Requirements",
    "5. Technical Requirements",
    "6. UI/UX Requirements",
    "7. Issues and Concerns"]

  /** The key looked up first for each section. */
  const UpperKeys := [
    "PROJECT OVERVIEW",
    "FUNCTIONAL REQUIREMENTS",
    "NON-FUNCTIONAL REQUIREMENTS",
    "TECHNICAL REQUIREMENTS",
    "UI/UX REQUIREMENTS",
    "ISSUES AND CONCERNS"]

  /** The key looked up when the first is missing. */
  const SnakeKeys := [
    "project_overview",
    "functional_requirements",
    "non_functional_requirements",
    "technical_requirements",
    "ui_ux_requirements",
    "issues_and_concerns"]

  const Placeholders := [
    "*To be determined based on meeting analysis.*",
    "*Functional requirements will be extracted from meeting analysis.*",
    "*Non-functional requirements will be extracted from meeting analysis.*",
    "*Technical requirements will be extracted from meeting analysis.*",
    "*UI/UX requirements will be extracted from visual analysis.*",
    "*Issues and concerns will be extracted from meeting discussion.*"]

  /** A section's value: under the upper-case key when present, else under
      the snake-case key, else none. */
  function Lookup(ms: seq<Member>, upper: string, snake: string): (r: Option<Json>)
    ensures r.Some? <==> Has(ms, upper) || Has(ms, snake)
    ensures Has(ms, upper) ==> r == Get(ms, upper)
    ensures !Has(ms, upper) ==> r == Get(ms, snake)
  {
    if Has(ms, upper) then Get(ms, upper) else Get(ms, snake)
  }

  /** `key.replace('_', ' ').title()`. */
  function Label(key: string): string {
    Title(ReplaceChar(key, '_', ' '))
  }

  /** One "**Label:** value" line per member. */
  function FieldBlocks(ms: seq<Member>): (bs: seq<Block>)
    ensures |bs| == |ms| && NoTop(bs)
  {
    if ms == [] then []
    else
      var m := ms[|ms| - 1];
      FieldBlocks(ms[..|ms| - 1]) + [Field(Label(m.key), Str(m.value))]
  }

  /** "### FR-001", "### FR-002", ... each followed by its requirement. */
  function NumberedBlocks(items: seq<Json>): (bs: seq<Block>)
    ensures |bs| == 2 * |items| && NoTop(bs)
  {
    if items == [] then []
    else
      NumberedBlocks(items[..|items| - 1])
        + [Heading(3, "FR-" + Padded(|items|, 3)), Para(Str(items[|items| - 1]))]
  }

  /** A third-level heading per member, named by its key as written. */
  function KeyedBlocks(ms: seq<Member>): (bs: seq<Block>)
    ensures |bs| == 2 * |ms| && NoTop(bs)
  {
    if ms == [] then []
    else
      var m := ms[|ms| - 1];
      KeyedBlocks(ms[..|ms| - 1]) + [Heading(3, m.key), Para(Str(m.value))]
  }

  /** A third-level heading per member, named by its key's label. */
  function LabelledBlocks(ms: seq<Member>): (bs: seq<Block>)
    ensures |bs| == 2 * |ms| && NoTop(bs)
  {
    if ms == [] then []
    else
      var m := ms[|ms| - 1];
      LabelledBlocks(ms[..|ms| - 1]) + [Heading(3, Label(m.key)), Para(Str(m.value))]
  }

  function BulletBlocks(items: seq<Json>): (bs: seq<Block>)
    ensures |bs| == |items| && NoTop(bs)
  {
    if items == [] then [] else BulletBlocks(items[..|items| - 1]) + [Bullet(Str(items[|items| - 1]))]
  }

  /** The body of section `k` for the value found for it. */
  function SectionBody(k: nat, v: Option<Json>): (bs: seq<Block>)
    requires k < SectionCount
    ensures NoTop(bs)
  {
    if v.None? then [Para(Placeholders[k])]
    else
      var x := v.value;
      if k == 0 || k == 3 then (if x.JObj? then FieldBlocks(x.members) else [Para(Str(x))])
      else if k == 1 then
        (if x.JArr? then NumberedBlocks(x.items) else if x.JObj? then KeyedBlocks(x.members) else [Para(Str(x))])
      else if k == 2 then (if x.JObj? then LabelledBlocks(x.members) else [Para(Str(x))])
      else if k == 4 then [Para(Str(x))]
      else (if x.JArr? then BulletBlocks(x.items) + [Blank] else [Line(Str(x)), Blank])
  }

  function Section(ms: seq<Member>, k: nat): seq<Block>
    requires k < SectionCount
  {
    [Heading(2, Titles[k])] + SectionBody(k, Lookup(ms, UpperKeys[k], SnakeKeys[k]))
  }

  /** The first `n` sections, in order. */
  function Sections(ms: seq<Member>, n: nat): seq<Block>
    requires n <= SectionCount
  {
    if n == 0 then [] else Sections(ms, n - 1) + Section(ms, n - 1)
  }

  function RawBlocks(ms: seq<Member>): seq<Block> {
    if Has(ms, "raw_analysis") then [Rule, Heading(2, "Raw Analysis"), Para(Str(Get(ms, "raw_analysis").value))]
    else []
  }

  /** The whole Markdown document, as blocks. A mapping gets the six
      sections and, when it carries one, the raw analysis; anything else is
      written out as it is. */
  function MarkdownBlocks(requirements: Json, projectName: string, timestamp: string): seq<Block> {
    Preamble(projectName, timestamp) + Body(requirements) + Appendix()
  }

  /** What stands between the introduction and the appendix. */
  function Body(requirements: Json): seq<Block> {
    if requirements.JObj? then Sections(requirements.members, SectionCount) + RawBlocks(requirements.members)
    else [Blank, Para(Str(requirements))]
  }

  // ---------------------------------------------------------------------
  // What the Markdown document promises

  lemma {:induction false} NumberedBlocksAt(items: seq<Json>, i: nat)
    requires i < |items|
    ensures NumberedBlocks(items)[2 * i] == Heading(3, "FR-" + Padded(i + 1, 3))
    ensures NumberedBlocks(items)[2 * i + 1] == Para(Str(items[i]))
  {
    var n := |items|;
    var init := items[..n - 1];
    var front := NumberedBlocks(init);
    var bs := NumberedBlocks(items);
    assert bs == front + [Heading(3, "FR-" + Padded(n, 3)), Para(Str(items[n - 1]))];
    if i < n - 1 {
      NumberedBlocksAt(init, i);
      assert init[i] == items[i];
      assert bs[2 * i] == front[2 * i] && bs[2 * i + 1] == front[2 * i + 1];
    } else {
      assert |front| == 2 * i;
    }
  }

  /** Functional requirements given as a list are numbered FR-001, FR-002,
      ... in list order, each heading followed by its requirement, and no
      two share a number. */
  lemma FunctionalRequirementsNumbered(items: seq<Json>)
    ensures var bs := NumberedBlocks(items);
            && |bs| == 2 * |items|
            && (forall i :: 0 <= i < |items| ==> bs[2 * i] == Heading(3, "FR-" + Padded(i + 1, 3)))
            && (forall i :: 0 <= i < |items| ==> bs[2 * i + 1] == Para(Str(items[i])))
            && (forall i, j :: 0 <= i < j < |items| ==> bs[2 * i] != bs[2 * j])
  {
    var bs := NumberedBlocks(items);
    forall i | 0 <= i < |items|
      ensures bs[2 * i] == Heading(3, "FR-" + Padded(i + 1, 3))
      ensures bs[2 * i + 1] == Para(Str(items[i]))
    {
      NumberedBlocksAt(items, i);
    }
    forall i, j | 0 <= i < j < |items|
      ensures bs[2 * i] != bs[2 * j]
    {
      NumberedHeadingsDistinct(items, i, j);
    }
  }

  lemma NumberedHeadingsDistinct(items: seq<Json>, i: nat, j: nat)
    requires i < j < |items|
    ensures NumberedBlocks(items)[2 * i] != NumberedBlocks(items)[2 * j]
  {
    NumberedHeadingNumber(items, i);
    NumberedHeadingNumber(items, j);
  }

  /** The number after "FR-" in the heading of item `i` reads back as `i + 1`. */
  lemma NumberedHeadingNumber(items: seq<Json>, i: nat)
    requires i < |items|
    ensures var b := NumberedBlocks(items)[2 * i]; b.Heading? && |b.text| >= 3 && ParseDecimal(b.text[3..]) == i + 1
  {
    NumberedBlocksAt(items, i);
    var heading := "FR-" + Padded(i + 1, 3);
    assert heading[3..] == Padded(i + 1, 3);
    PaddedRoundTrip(i + 1, 3);
  }

  lemma {:induction false} BulletBlocksAt(items: seq<Json>, i: nat)
    requires i < |items|
    ensures BulletBlocks(items)[i] == Bullet(Str(items[i]))
  {
    var init := items[..|items| - 1];
    if i < |items| - 1 {
      BulletBlocksAt(init, i);
      assert init[i] == items[i];
    }
  }

  /** Issues given as a list become one bullet per issue, in order, and
      then a blank line. */
  lemma IssuesAsBullets(items: seq<Json>)
    ensures var bs := SectionBody(5, Some(JArr(items)));
            && |bs| == |items| + 1 && bs[|items|] == Blank
            && forall i :: 0 <= i < |items| ==> bs[i] == Bullet(Str(items[i]))
  {
    forall i | 0 <= i < |items|
      ensures BulletBlocks(items)[i] == Bullet(Str(items[i]))
    {
      BulletBlocksAt(items, i);
    }
  }

  lemma {:induction false} SectionsHeadings(ms: seq<Member>, n: nat)
    requires n <= SectionCount
    ensures TopHeadings(Sections(ms, n)) == Titles[..n]
  {
    if n > 0 {
      SectionsHeadings(ms, n - 1);
      var k := n - 1;
      var head := [Heading(2, Titles[k])];
      var body := SectionBody(k, Lookup(ms, UpperKeys[k], SnakeKeys[k]));
      NoTopHeadings(body);
      TopHeadingsAppend(head, body);
      assert head[..0] == [];
      assert TopHeadings(head) == [Titles[k]];
      assert Section(ms, k) == head + body;
      assert Sections(ms, n) == Sections(ms, n - 1) + Section(ms, k);
      TopHeadingsAppend(Sections(ms, n - 1), Section(ms, k));
      assert TopHeadings(Sections(ms, n)) == Titles[..n - 1] + [Titles[k]];
      PrefixStep(Titles, n);
    }
  }

  lemma PrefixStep<T>(s: seq<T>, n: nat)
    requires 0 < n <= |s|
    ensures s[..n] == s[..n - 1] + [s[n - 1]]
  {
    assert s[..n][..n - 1] == s[..n - 1];
  }

  lemma TopHeadingsSingle(b: Block)
    ensures TopHeadings([b]) == if IsTop(b) then [b.text] else []
  {
    assert [b][..0] == [];
  }

  lemma PreambleHeadings(projectName: string, timestamp: string)
    ensures TopHeadings(Preamble(projectName, timestamp)) == ["Table of Contents", "1. Introduction"]
  {
    TwoTopHeadings(Preamble(projectName, timestamp), 3, 6);
  }


  /** A list whose only second-level headings are at positions `i` and `j`
      has those two headings, in that order. */
  lemma TwoTopHeadings(bs: seq<Block>, i: nat, j: nat)
    requires i < j < |bs| && IsTop(bs[i]) && IsTop(bs[j])
    requires forall k :: 0 <= k < |bs| && k != i && k != j ==> !IsTop(bs[k])
    ensures TopHeadings(bs) == [bs[i].text, bs[j].text]
  {
    var a, b := bs[..j], bs[j..];
    assert bs == a + b;
    SingleTopHeading(a, i);
    SingleTopHeading(b, 0);
    TopHeadingsAppend(a, b);
  }

  /** A list whose only second-level heading is at position `i` has that
      heading alone. */
  lemma SingleTopHeading(bs: seq<Block>, i: nat)
    requires i < |bs| && IsTop(bs[i])
    requires forall j :: 0 <= j < |bs| && j != i ==> !IsTop(bs[j])
    ensures TopHeadings(bs) == [bs[i].text]
  {
    var a, b, c := bs[..i], [bs[i]], bs[i + 1..];
    assert bs == a + b + c;
    NoTopHeadings(a);
    NoTopHeadings(c);
    TopHeadingsSingle(bs[i]);
    TopHeadingsAppend(a, b);
    TopHeadingsAppend(a + b, c);
  }

  lemma AppendixHeadings()
    ensures TopHeadings(Appendix()) == ["Appendix"]
  {
    SingleTopHeading(Appendix(), 1);
  }

  lemma RawHeadings(ms: seq<Member>)
    ensures TopHeadings(RawBlocks(ms)) == if Has(ms, "raw_analysis") then ["Raw Analysis"] else []
  {
    var bs := RawBlocks(ms);
    if bs != [] {
      var a, b, c := [bs[0]], [bs[1]], bs[2..];
      assert bs == a + b + c;
      NoTopHeadings(a);
      NoTopHeadings(c);
      TopHeadingsSingle(bs[1]);
      TopHeadingsAppend(a, b);
      TopHeadingsAppend(a + b, c);
    }
  }

  /** The headings of the body of a mapping: the six titles, then the raw
      analysis when there is one. */
  lemma BodyHeadings(ms: seq<Member>)
    ensures TopHeadings(Body(JObj(ms))) == Titles + (if Has(ms, "raw_analysis") then ["Raw Analysis"] else [])
  {
    SectionsHeadings(ms, SectionCount);
    assert Titles[..SectionCount] == Titles;
    RawHeadings(ms);
    TopHeadingsAppend(Sections(ms, SectionCount), RawBlocks(ms));
  }

  /** The second-level headings of the Markdown document. A mapping gets
      the table of contents, the introduction, the six numbered sections in
      order, the raw analysis exactly when the mapping has one, and the
      appendix; anything else gets no numbered section at all. */
  lemma MarkdownHeadings(requirements: Json, projectName: string, timestamp: string)
    ensures TopHeadings(MarkdownBlocks(requirements, projectName, timestamp))
            == if requirements.JObj? then
                 ["Table of Contents", "1. Introduction"] + Titles
                 + (if Has(requirements.members, "raw_analysis") then ["Raw Analysis"] else [])
                 + ["Appendix"]
               else ["Table of Contents", "1. Introduction", "Appendix"]
  {
    MarkdownHeadingsSplit(requirements, projectName, timestamp);
    PreambleHeadings(projectName, timestamp);
    AppendixHeadings();
    if requirements.JObj? {
      BodyHeadings(requirements.members);
    } else {
      NoTopHeadings(Body(requirements));
    }
  }

  lemma MarkdownHeadingsSplit(requirements: Json, projectName: string, timestamp: string)
    ensures TopHeadings(MarkdownBlocks(requirements, projectName, timestamp))
            == TopHeadings(Preamble(projectName, timestamp)) + TopHeadings(Body(requirements)) + TopHeadings(Appendix())
  {
    ThreePartHeadings(Preamble(projectName, timestamp), Body(requirements), Appendix());
  }

  lemma ThreePartHeadings(a: seq<Block>, b: seq<Block>, c: seq<Block>)
    ensures TopHeadings(a + b + c) == TopHeadings(a) + TopHeadings(b) + TopHeadings(c)
  {
    TopHeadingsAppend(a, b);
    TopHeadingsAppend(a + b, c);
  }

  /** A section whose two keys are both missing holds only its placeholder. */
  lemma MissingSectionPlaceholder(ms: seq<Member>, k: nat)
    requires k < SectionCount
    requires !Has(ms, UpperKeys[k]) && !Has(ms, SnakeKeys[k])
    ensures Section(ms, k) == [Heading(2, Titles[k]), Para(Placeholders[k])]
  {
  }

  /** When both keys of a section are present, the upper-case one is used. */
  lemma UpperCaseKeyWins(ms: seq<Member>, k: nat)
    requires k < SectionCount
    requires Has(ms, UpperKeys[k])
    ensures Section(ms, k) == [Heading(2, Titles[k])] + SectionBody(k, Get(ms, UpperKeys[k]))
  {
  }

  // ---------------------------------------------------------------------
  // Output files

  /** `project_name.replace(' ', '_')`. */
  function FileStem(projectName: string): (s: string)
    ensures |s| == |projectName| && ' ' !in s
  {
    var s := ReplaceChar(projectName, ' ', '_');
    assert forall i :: 0 <= i < |s| ==> s[i] != ' ';
    s
  }

  function MarkdownName(projectName: string): string {
    "SRS_" + FileStem(projectName) + ".md"
  }

  function DocxName(projectName: string): string {
    "SRS_" + FileStem(projectName) + ".docx"
  }

  function JsonName(projectName: string): string {
    "requirements_" + FileStem(projectName) + ".json"
  }

  /** The three files of a project have different names, none with a
      space in it. */
  lemma OutputNamesDistinct(projectName: string)
    ensures var md, docx, json := MarkdownName(projectName), DocxName(projectName), JsonName(projectName);
            && md != docx && md != json && docx != json
            && ' ' !in md && ' ' !in docx && ' ' !in json
  {
    var md, docx, json := MarkdownName(projectName), DocxName(projectName), JsonName(projectName);
    assert md[|md| - 1] == 'd' && docx[|docx| - 1] == 'x' && json[|json| - 1] == 'n';
    var stem := FileStem(projectName);
    forall c | c in md ensures c != ' ' {
      assert c in "SRS_" || c in stem || c in ".md";
    }
    forall c | c in docx ensures c != ' ' {
      assert c in "SRS_" || c in stem || c in ".docx";
    }
    forall c | c in json ensures c != ' ' {
      assert c in "requirements_" || c in stem || c in ".json";
    }
  }

  // ---------------------------------------------------------------------
  // Building the Markdown text

  lemma RenderSnoc(front: seq<Block>, b: Block)
    ensures Render(front + [b]) == Render(front) + RenderBlock(b)
  {
    assert (front + [b])[..|front|] == front;
  }

  lemma RenderPair(front: seq<Block>, b1: Block, b2: Block)
    ensures Render(front + [b1, b2]) == Render(front) + RenderBlock(b1) + RenderBlock(b2)
  {
    assert front + [b1, b2] == (front + [b1]) + [b2];
    RenderSnoc(front + [b1], b2);
    RenderSnoc(front, b1);
  }

  /** A third-level heading followed by a paragraph. */
  lemma SubsectionRendered(front: seq<Block>, title: string, text: string)
    ensures Render(front + [Heading(3, title), Para(text)])
            == Render(front) + ("### " + title + "\n\n") + (text + "\n\n")
  {
    RenderPair(front, Heading(3, title), Para(text));
    assert Hashes(3) + " " == "### ";
  }

  lemma Associative(a: string, b: string, c: string)
    ensures (a + b) + c == a + (b + c)
  {
  }

  lemma FieldsStep(ms: seq<Member>, i: nat)
    requires i < |ms|
    ensures Render(FieldBlocks(ms[..i + 1]))
            == Render(FieldBlocks(ms[..i])) + ("**" + Label(ms[i].key) + ":** " + Str(ms[i].value) + "\n\n")
  {
    var field := Field(Label(ms[i].key), Str(ms[i].value));
    assert FieldBlocks(ms[..i + 1]) == FieldBlocks(ms[..i]) + [field] by {
      assert ms[..i + 1][..i] == ms[..i];
    }
    RenderSnoc(FieldBlocks(ms[..i]), field);
  }

  /** Appends the "**Label:** value" lines of a mapping. */
  method AppendFields(content: string, ms: seq<Member>) returns (c: string)
    ensures c == content + Render(FieldBlocks(ms))
  {
    c := content;
    for i := 0 to |ms|
      invariant c == content + Render(FieldBlocks(ms[..i]))
    {
      var line := "**" + Label(ms[i].key) + ":** " + Str(ms[i].value) + "\n\n";
      FieldsStep(ms, i);
      Associative(content, Render(FieldBlocks(ms[..i])), line);
      c := c + line;
    }
    assert ms[..|ms|] == ms;
  }

  lemma NumberedStep(items: seq<Json>, i: nat)
    requires i < |items|
    ensures Render(NumberedBlocks(items[..i + 1]))
            == Render(NumberedBlocks(items[..i])) + ("### " + ("FR-" + Padded(i + 1, 3)) + "\n\n") + (Str(items[i]) + "\n\n")
  {
    var title := "FR-" + Padded(i + 1, 3);
    assert NumberedBlocks(items[..i + 1]) == NumberedBlocks(items[..i]) + [Heading(3, title), Para(Str(items[i]))] by {
      assert items[..i + 1][..i] == items[..i];
    }
    SubsectionRendered(NumberedBlocks(items[..i]), title, Str(items[i]));
  }

  /** Appends "### FR-<i>" and the requirement for each item, from 1. */
  method AppendNumbered(content: string, items: seq<Json>) returns (c: string)
    ensures c == content + Render(NumberedBlocks(items))
  {
    c := content;
    for i := 0 to |items|
      invariant c == content + Render(NumberedBlocks(items[..i]))
    {
      var heading, text := "### " + ("FR-" + Padded(i + 1, 3)) + "\n\n", Str(items[i]) + "\n\n";
      NumberedStep(items, i);
      Associative(content, Render(NumberedBlocks(items[..i])), heading);
      Associative(content, Render(NumberedBlocks(items[..i])) + heading, text);
      c := c + heading + text;
    }
    assert items[..|items|] == items;
  }

  lemma KeyedStep(ms: seq<Member>, i: nat)
    requires i < |ms|
    ensures Render(KeyedBlocks(ms[..i + 1]))
            == Render(KeyedBlocks(ms[..i])) + ("### " + ms[i].key + "\n\n") + (Str(ms[i].value) + "\n\n")
  {
    var title := ms[i].key;
    assert KeyedBlocks(ms[..i + 1]) == KeyedBlocks(ms[..i]) + [Heading(3, title), Para(Str(ms[i].value))] by {
      assert ms[..i + 1][..i] == ms[..i];
    }
    SubsectionRendered(KeyedBlocks(ms[..i]), title, Str(ms[i].value));
  }

  /** Appends a "### key" heading and the value for each member. */
  method AppendKeyed(content: string, ms: seq<Member>) returns (c: string)
    ensures c == content + Render(KeyedBlocks(ms))
  {
    c := content;
    for i := 0 to |ms|
      invariant c == content + Render(KeyedBlocks(ms[..i]))
    {
      var heading, text := "### " + ms[i].key + "\n\n", Str(ms[i].value) + "\n\n";
      KeyedStep(ms, i);
      Associative(content, Render(KeyedBlocks(ms[..i])), heading);
      Associative(content, Render(KeyedBlocks(ms[..i])) + heading, text);
      c := c + heading + text;
    }
    assert ms[..|ms|] == ms;
  }

  lemma LabelledStep(ms: seq<Member>, i: nat)
    requires i < |ms|
    ensures Render(LabelledBlocks(ms[..i + 1]))
            == Render(LabelledBlocks(ms[..i])) + ("### " + Label(ms[i].key) + "\n\n") + (Str(ms[i].value) + "\n\n")
  {
    var title := Label(ms[i].key);
    assert LabelledBlocks(ms[..i + 1]) == LabelledBlocks(ms[..i]) + [Heading(3, title), Para(Str(ms[i].value))] by {
      assert ms[..i + 1][..i] == ms[..i];
    }
    SubsectionRendered(LabelledBlocks(ms[..i]), title, Str(ms[i].value));
  }

  /** Appends a "### Label" heading and the value for each member. */
  method AppendLabelled(content: string, ms: seq<Member>) returns (c: string)
    ensures c == content + Render(LabelledBlocks(ms))
  {
    c := content;
    for i := 0 to |ms|
      invariant c == content + Render(LabelledBlocks(ms[..i]))
    {
      var heading, text := "### " + Label(ms[i].key) + "\n\n", Str(ms[i].value) + "\n\n";
      LabelledStep(ms, i);
      Associative(content, Render(LabelledBlocks(ms[..i])), heading);
      Associative(content, Render(LabelledBlocks(ms[..i])) + heading, text);
      c := c + heading + text;
    }
    assert ms[..|ms|] == ms;
  }

  lemma BulletsStep(items: seq<Json>, i: nat)
    requires i < |items|
    ensures Render(BulletBlocks(items[..i + 1])) == Render(BulletBlocks(items[..i])) + ("- " + Str(items[i]) + "\n")
  {
    var bullet := Bullet(Str(items[i]));
    assert BulletBlocks(items[..i + 1]) == BulletBlocks(items[..i]) + [bullet] by {
      assert items[..i + 1][..i] == items[..i];
    }
    RenderSnoc(BulletBlocks(items[..i]), bullet);
  }

  /** Appends a "- item" line per item. */
  method AppendBullets(content: string, items: seq<Json>) returns (c: string)
    ensures c == content + Render(BulletBlocks(items))
  {
    c := content;
    for i := 0 to |items|
      invariant c == content + Render(BulletBlocks(items[..i]))
    {
      var line := "- " + Str(items[i]) + "\n";
      BulletsStep(items, i);
      Associative(content, Render(BulletBlocks(items[..i])), line);
      c := c + line;
    }
    assert items[..|items|] == items;
  }

  lemma RenderOne(b: Block)
    ensures Render([b]) == RenderBlock(b)
  {
    assert [b][..0] == [];
  }

  lemma EmptyPrefix(s: string)
    ensures "" + s == s
  {
  }

  /** The text of section `k`'s body for the value found for it. */
  method SectionText(k: nat, v: Option<Json>) returns (text: string)
    requires k < SectionCount
    ensures text == Render(SectionBody(k, v))
  {
    if v.None? {
      RenderOne(Para(Placeholders[k]));
      return Placeholders[k] + "\n\n";
    }
    var x := v.value;
    if k == 0 || k == 3 {
      if x.JObj? {
        text := AppendFields("", x.members);
        EmptyPrefix(Render(FieldBlocks(x.members)));
      } else {
        text := Str(x) + "\n\n";
        RenderOne(Para(Str(x)));
      }
    } else if k == 1 {
      if x.JArr? {
        text := AppendNumbered("", x.items);
        EmptyPrefix(Render(NumberedBlocks(x.items)));
      } else if x.JObj? {
        text := AppendKeyed("", x.members);
        EmptyPrefix(Render(KeyedBlocks(x.members)));
      } else {
        text := Str(x) + "\n\n";
        RenderOne(Para(Str(x)));
      }
    } else if k == 2 {
      if x.JObj? {
        text := AppendLabelled("", x.members);
        EmptyPrefix(Render(LabelledBlocks(x.members)));
      } else {
        text := Str(x) + "\n\n";
        RenderOne(Para(Str(x)));
      }
    } else if k == 4 {
      text := Str(x) + "\n\n";
      RenderOne(Para(Str(x)));
    } else if x.JArr? {
      text := AppendBullets("", x.items);
      EmptyPrefix(Render(BulletBlocks(x.items)));
      RenderSnoc(BulletBlocks(x.items), Blank);
      text := text + "\n";
    } else {
      text := Str(x) + "\n";
      RenderPair([], Line(Str(x)), Blank);
      assert [] + [Line(Str(x)), Blank] == [Line(Str(x)), Blank];
      EmptyPrefix(Str(x) + "\n");
      text := text + "\n";
    }
  }

  /** Appends section `k` of a mapping: its heading, then its body. */
  method AppendSection(content: string, ms: seq<Member>, k: nat) returns (c: string)
    requires k < SectionCount
    ensures c == content + Render(Section(ms, k))
  {
    var heading := "## " + Titles[k] + "\n\n";
    c := content + heading;
    var v := Lookup(ms, UpperKeys[k], SnakeKeys[k]);
    var body := SectionText(k, v);
    c := c + body;
    assert Render(Section(ms, k)) == heading + body by {
      RenderAppend([Heading(2, Titles[k])], SectionBody(k, v));
      RenderOne(Heading(2, Titles[k]));
      assert Hashes(2) + " " == "## ";
    }
    Associative(content, heading, body);
  }

  // ---------------------------------------------------------------------
  // The word-processor document

  datatype ParagraphStyle = Normal | ListBullet

  /** What `generate_docx` adds to the document, in order. */
  datatype DocBlock =
    | DocHeading(text: string, level: nat)
    | DocPara(text: string, style: ParagraphStyle)
    | PageBreak

  /** The section titles and the only keys looked up for them. */
  const DocTitles := [
    "Introduction", "Project Overview", "Functional Requirements", "Non-Functional Requirements",
    "Technical Requirements", "UI/UX Requirements", "Issues and Concerns"]

  const DocKeys := [
    "introduction", "project_overview", "functional_requirements", "non_functional_requirements",
    "technical_requirements", "ui_ux_requirements", "issues_and_concerns"]

  const DocSectionCount := 7

  function DocFront(projectName: string, date: string): seq<DocBlock> {
    [DocHeading(DocumentTitle, 0),
     DocPara("Project: " + projectName, Normal),
     DocPara("Date: " + date, Normal),
     DocPara("Version: 1.0", Normal),
     PageBreak]
  }

  /** A level-2 heading and a paragraph per member. */
  function DocMemberBlocks(ms: seq<Member>): (bs: seq<DocBlock>)
    ensures |bs| == 2 * |ms|
  {
    if ms == [] then []
    else
      var m := ms[|ms| - 1];
      DocMemberBlocks(ms[..|ms| - 1]) + [DocHeading(Label(m.key), 2), DocPara(Str(m.value), Normal)]
  }

  /** A bulleted paragraph per item. */
  function DocItemBlocks(items: seq<Json>): (bs: seq<DocBlock>)
    ensures |bs| == |items|
  {
    if items == [] then [] else DocItemBlocks(items[..|items| - 1]) + [DocPara(Str(items[|items| - 1]), ListBullet)]
  }

  function DocBody(title: string, key: string, requirements: Json): seq<DocBlock> {
    if requirements.JObj? && Has(requirements.members, key) then
      var data := Get(requirements.members, key).value;
      if data.JObj? then DocMemberBlocks(data.members)
      else if data.JArr? then DocItemBlocks(data.items)
      else [DocPara(Str(data), Normal)]
    else [DocPara(title + " will be extracted from meeting analysis.", Normal)]
  }

  /** Section `i`: its level-1 heading, its body and an empty paragraph. */
  function DocSection(requirements: Json, i: nat): seq<DocBlock>
    requires i < DocSectionCount
  {
    [DocHeading(DocTitles[i], 1)] + DocBody(DocTitles[i], DocKeys[i], requirements) + [DocPara("", Normal)]
  }

  function DocSections(requirements: Json, n: nat): seq<DocBlock>
    requires n <= DocSectionCount
  {
    if n == 0 then [] else DocSections(requirements, n - 1) + DocSection(requirements, n - 1)
  }

  function DocxBlocks(requirements: Json, projectName: string, date: string): seq<DocBlock> {
    DocFront(projectName, date) + DocSections(requirements, DocSectionCount)
  }

  /** The texts of the level-1 headings, in order. */
  function SectionHeadings(bs: seq<DocBlock>): seq<string> {
    if bs == [] then []
    else
      var b := bs[|bs| - 1];
      SectionHeadings(bs[..|bs| - 1]) + (if b.DocHeading? && b.level == 1 then [b.text] else [])
  }

  lemma {:induction false} SectionHeadingsAppend(a: seq<DocBlock>, b: seq<DocBlock>)
    ensures SectionHeadings(a + b) == SectionHeadings(a) + SectionHeadings(b)
  {
    if b != [] {
      var ab := a + b;
      assert ab[..|ab| - 1] == a + b[..|b| - 1];
      SectionHeadingsAppend(a, b[..|b| - 1]);
    } else {
      assert a + b == a;
    }
  }

  predicate NoSectionHeading(bs: seq<DocBlock>) {
    forall i :: 0 <= i < |bs| ==> !(bs[i].DocHeading? && bs[i].level == 1)
  }

  lemma {:induction false} NoSectionHeadings(bs: seq<DocBlock>)
    requires NoSectionHeading(bs)
    ensures SectionHeadings(bs) == []
  {
    if bs != [] {
      NoSectionHeadings(bs[..|bs| - 1]);
    }
  }

  /** Whatever the requirements, the document's level-1 headings are the
      seven section titles, in order. */
  lemma DocxSectionTitles(requirements: Json, projectName: string, date: string)
    ensures SectionHeadings(DocxBlocks(requirements, projectName, date)) == DocTitles
  {
    var front := DocFront(projectName, date);
    var sections := DocSections(requirements, DocSectionCount);
    assert SectionHeadings(front) == [] by {
      NoSectionHeadings(front);
    }
    assert SectionHeadings(sections) == DocTitles by {
      DocSectionsTitles(requirements, DocSectionCount);
      WholePrefix(DocTitles);
    }
    SectionHeadingsAppend(front, sections);
  }

  lemma WholePrefix<T>(s: seq<T>)
    ensures s[..|s|] == s
  {
  }

  lemma {:induction false} DocSectionsTitles(requirements: Json, n: nat)
    requires n <= DocSectionCount
    ensures SectionHeadings(DocSections(requirements, n)) == DocTitles[..n]
  {
    if n > 0 {
      var front := DocSections(requirements, n - 1);
      var last := DocSection(requirements, n - 1);
      assert DocSections(requirements, n) == front + last;
      DocSectionsTitles(requirements, n - 1);
      DocSectionTitle(requirements, n - 1);
      SectionHeadingsAppend(front, last);
      PrefixStep(DocTitles, n);
    }
  }

  lemma DocSectionTitle(requirements: Json, i: nat)
    requires i < DocSectionCount
    ensures SectionHeadings(DocSection(requirements, i)) == [DocTitles[i]]
  {
    var body := DocBody(DocTitles[i], DocKeys[i], requirements);
    DocBodyHasNoSectionHeading(DocTitles[i], DocKeys[i], requirements);
    TitledSectionHeadings(DocTitles[i], body);
  }

  /** A level-1 heading, a body without one, and a closing paragraph. */
  lemma TitledSectionHeadings(title: string, body: seq<DocBlock>)
    requires NoSectionHeading(body + [DocPara("", Normal)])
    ensures SectionHeadings([DocHeading(title, 1)] + body + [DocPara("", Normal)]) == [title]
  {
    var head, rest := [DocHeading(title, 1)], body + [DocPara("", Normal)];
    assert SectionHeadings(head) == [title] by {
      assert head[..0] == [];
    }
    NoSectionHeadings(rest);
    assert [DocHeading(title, 1)] + body + [DocPara("", Normal)] == head + rest;
    SectionHeadingsAppend(head, rest);
  }


  lemma DocBodyHasNoSectionHeading(title: string, key: string, requirements: Json)
    ensures NoSectionHeading(DocBody(title, key, requirements) + [DocPara("", Normal)])
  {
    if requirements.JObj? && Has(requirements.members, key) {
      var data := Get(requirements.members, key).value;
      if data.JObj? {
        MemberBlocksHaveNoSectionHeading(data.members);
      } else if data.JArr? {
        ItemBlocksHaveNoSectionHeading(data.items);
      }
    }
  }

  lemma {:induction false} MemberBlocksHaveNoSectionHeading(ms: seq<Member>)
    ensures NoSectionHeading(DocMemberBlocks(ms))
  {
    if ms != [] {
      MemberBlocksHaveNoSectionHeading(ms[..|ms| - 1]);
    }
  }

  lemma {:induction false} ItemBlocksHaveNoSectionHeading(items: seq<Json>)
    ensures NoSectionHeading(DocItemBlocks(items))
  {
    if items != [] {
      ItemBlocksHaveNoSectionHeading(items[..|items| - 1]);
    }
  }

  /** The document reads only the snake-case keys: a mapping that has none
      of them gives the same document as a value that is no mapping at all,
      every section holding its placeholder. */
  lemma DocxIgnoresOtherKeys(ms: seq<Member>, projectName: string, date: string)
    requires forall i :: 0 <= i < DocSectionCount ==> !Has(ms, DocKeys[i])
    ensures DocxBlocks(JObj(ms), projectName, date) == DocxBlocks(JNull, projectName, date)
  {
    DocSectionsWithoutKeys(ms, DocSectionCount);
  }

  lemma {:induction false} DocSectionsWithoutKeys(ms: seq<Member>, n: nat)
    requires n <= DocSectionCount
    requires forall i :: 0 <= i < DocSectionCount ==> !Has(ms, DocKeys[i])
    ensures DocSections(JObj(ms), n) == DocSections(JNull, n)
  {
    if n > 0 {
      DocSectionsWithoutKeys(ms, n - 1);
      assert !Has(ms, DocKeys[n - 1]);
    }
  }

  /** Each output file is named as computed above inside the output
      directory, provided the project name has no '/'. */
  lemma OutputPathsNamed(outputDir: string, projectName: string)
    requires '/' !in projectName
    ensures Name(PathJoin(outputDir, MarkdownName(projectName))) == MarkdownName(projectName)
    ensures Name(PathJoin(outputDir, DocxName(projectName))) == DocxName(projectName)
    ensures Name(PathJoin(outputDir, JsonName(projectName))) == JsonName(projectName)
  {
    var stem := FileStem(projectName);
    assert '/' !in stem by {
      forall c | c in stem ensures c != '/' {
        var i :| 0 <= i < |stem| && stem[i] == c;
        assert projectName[i] in projectName;
      }
    }
    var md, docx, json := MarkdownName(projectName), DocxName(projectName), JsonName(projectName);
    forall c | c in md ensures c != '/' {
      assert c in "SRS_" || c in stem || c in ".md";
    }
    forall c | c in docx ensures c != '/' {
      assert c in "SRS_" || c in stem || c in ".docx";
    }
    forall c | c in json ensures c != '/' {
      assert c in "requirements_" || c in stem || c in ".json";
    }
    assert |md| >= 2 && |docx| >= 2 && |json| >= 2;
    NameOfJoin(outputDir, md);
    NameOfJoin(outputDir, docx);
    NameOfJoin(outputDir, json);
  }

  // ---------------------------------------------------------------------
  // Assembling the Markdown text

  lemma SectionsAdvance(start: string, before: string, after: string, ms: seq<Member>, k: nat)
    requires k < SectionCount
    requires before == start + Render(Sections(ms, k))
    requires after == before + Render(Section(ms, k))
    ensures after == start + Render(Sections(ms, k + 1))
  {
    RenderAppend(Sections(ms, k), Section(ms, k));
    Associative(start, Render(Sections(ms, k)), Render(Section(ms, k)));
  }

  /** The rule and the heading that open the raw analysis. */
  const RawHeader := RenderBlock(Rule) + RenderBlock(Heading(2, "Raw Analysis"))

  lemma RawHeaderRendered()
    ensures Render([Rule, Heading(2, "Raw Analysis")]) == RawHeader
  {
    RenderPair([], Rule, Heading(2, "Raw Analysis"));
    assert [] + [Rule, Heading(2, "Raw Analysis")] == [Rule, Heading(2, "Raw Analysis")];
    EmptyPrefix(RenderBlock(Rule));
  }

  lemma RawRendered(ms: seq<Member>)
    requires Has(ms, "raw_analysis")
    ensures Render(RawBlocks(ms)) == RawHeader + (Str(Get(ms, "raw_analysis").value) + "\n\n")
  {
    var raw := Para(Str(Get(ms, "raw_analysis").value));
    var header := [Rule, Heading(2, "Raw Analysis")];
    RawHeaderRendered();
    assert header + [raw] == RawBlocks(ms);
    RenderSnoc(header, raw);
  }

  lemma OtherRendered(requirements: Json)
    ensures Render([Blank, Para(Str(requirements))]) == "\n" + Str(requirements) + "\n\n"
  {
    RenderPair([], Blank, Para(Str(requirements)));
    assert [] + [Blank, Para(Str(requirements))] == [Blank, Para(Str(requirements))];
  }

  /** The document's text is the preamble's, then the middle part's, then
      the appendix's. */
  lemma MarkdownRendered(requirements: Json, projectName: string, timestamp: string)
    ensures Render(MarkdownBlocks(requirements, projectName, timestamp))
            == Render(Preamble(projectName, timestamp)) + Render(Body(requirements)) + Render(Appendix())
  {
    var pre := Preamble(projectName, timestamp);
    RenderAppend(pre + Body(requirements), Appendix());
    RenderAppend(pre, Body(requirements));
  }

  lemma DocSectionParts(before: seq<DocBlock>, requirements: Json, i: nat)
    requires i < DocSectionCount
    ensures before + [DocHeading(DocTitles[i], 1)] + DocBody(DocTitles[i], DocKeys[i], requirements) + [DocPara("", Normal)]
            == before + DocSection(requirements, i)
  {
  }

  lemma DocSectionsStep(front: seq<DocBlock>, requirements: Json, i: nat)
    requires i < DocSectionCount
    ensures front + DocSections(requirements, i + 1) == front + DocSections(requirements, i) + DocSection(requirements, i)
  {
    SeqAssociative(front, DocSections(requirements, i), DocSection(requirements, i));
  }

  lemma SeqAssociative<T>(a: seq<T>, b: seq<T>, c: seq<T>)
    ensures a + (b + c) == (a + b) + c
  {
  }

  /** One section of the document: its heading, its body, and an empty
      paragraph. */
  method AppendDocSection(doc: seq<DocBlock>, requirements: Json, i: nat) returns (d: seq<DocBlock>)
    requires i < DocSectionCount
    ensures d == doc + DocSection(requirements, i)
  {
    var title, key := DocTitles[i], DocKeys[i];
    d := doc + [DocHeading(title, 1)];
    ghost var headed := d;
    if requirements.JObj? && Has(requirements.members, key) {
      var data := Get(requirements.members, key).value;
      if data.JObj? {
        d := AppendMembers(d, data.members);
      } else if data.JArr? {
        d := AppendItems(d, data.items);
      } else {
        d := d + [DocPara(Str(data), Normal)];
      }
    } else {
      d := d + [DocPara(title + " will be extracted from meeting analysis.", Normal)];
    }
    assert d == headed + DocBody(title, key, requirements);
    d := d + [DocPara("", Normal)];
    DocSectionParts(doc, requirements, i);
  }

  /** One heading and one paragraph per member of a mapping. */
  method AppendMembers(doc: seq<DocBlock>, ms: seq<Member>) returns (d: seq<DocBlock>)
    ensures d == doc + DocMemberBlocks(ms)
  {
    d := doc;
    for j := 0 to |ms|
      invariant d == doc + DocMemberBlocks(ms[..j])
    {
      assert ms[..j + 1][..j] == ms[..j];
      d := d + [DocHeading(Label(ms[j].key), 2), DocPara(Str(ms[j].value), Normal)];
    }
    assert ms[..|ms|] == ms;
  }

  /** One bullet per item of a list. */
  method AppendItems(doc: seq<DocBlock>, items: seq<Json>) returns (d: seq<DocBlock>)
    ensures d == doc + DocItemBlocks(items)
  {
    d := doc;
    for j := 0 to |items|
      invariant d == doc + DocItemBlocks(items[..j])
    {
      assert items[..j + 1][..j] == items[..j];
      d := d + [DocPara(Str(items[j]), ListBullet)];
    }
    assert items[..|items|] == items;
  }

  /** The texts of `parts`, one after the other. */
  function Concat(parts: seq<string>): string {
    if parts == [] then "" else Concat(parts[..|parts| - 1]) + parts[|parts| - 1]
  }

  /** The rendered sections, one text per section. */
  function SectionTexts(ms: seq<Member>): (texts: seq<string>)
    ensures |texts| == SectionCount
  {
    seq(SectionCount, k requires 0 <= k < SectionCount => Render(Section(ms, k)))
  }

  lemma ConcatStep(parts: seq<string>, n: nat)
    requires 0 < n <= |parts|
    ensures Concat(parts[..n]) == Concat(parts[..n - 1]) + parts[n - 1]
  {
    assert parts[..n][..n - 1] == parts[..n - 1];
  }

  /** The first `n` sections render to the first `n` section texts. */
  lemma {:induction false} SectionTextsRendered(ms: seq<Member>, n: nat)
    requires n <= SectionCount
    ensures Concat(SectionTexts(ms)[..n]) == Render(Sections(ms, n))
  {
    if n > 0 {
      SectionTextsRendered(ms, n - 1);
      ConcatStep(SectionTexts(ms), n);
      SectionsRenderStep(ms, n);
    }
  }

  lemma SectionsRenderStep(ms: seq<Member>, n: nat)
    requires 0 < n <= SectionCount
    ensures Render(Sections(ms, n)) == Render(Sections(ms, n - 1)) + SectionTexts(ms)[n - 1]
  {
    var front, last := Sections(ms, n - 1), Section(ms, n - 1);
    assert Sections(ms, n) == front + last;
    RenderAppend(front, last);
  }

  /** The section texts, one after the other. */
  method AppendSectionTexts(content: string, ms: seq<Member>) returns (c: string)
    ensures c == content + Concat(SectionTexts(ms))
  {
    ghost var texts := SectionTexts(ms);
    c := content;
    assert texts[..0] == [];
    for k := 0 to SectionCount
      invariant c == content + Concat(texts[..k])
    {
      c := AppendSection(c, ms, k);
      assert texts[..k + 1][..k] == texts[..k];
      Associative(content, Concat(texts[..k]), texts[k]);
    }
    assert texts[..SectionCount] == texts;
  }

  /** The six numbered sections, in order. */
  method AppendSections(content: string, ms: seq<Member>) returns (c: string)
    ensures c == content + Render(Sections(ms, SectionCount))
  {
    c := AppendSectionTexts(content, ms);
    assert SectionTexts(ms)[..SectionCount] == SectionTexts(ms);
    SectionTextsRendered(ms, SectionCount);
  }

  /** The body of the Markdown document: the six sections and the raw
      analysis for a mapping, the value itself for anything else. */
  method AppendBody(content: string, requirements: Json) returns (c: string)
    ensures c == content + Render(Body(requirements))
  {
    if requirements.JObj? {
      var ms := requirements.members;
      c := AppendSections(content, ms);
      ghost var sections := c;
      if Has(ms, "raw_analysis") {
        var text := RawHeader + (Str(Get(ms, "raw_analysis").value) + "\n\n");
        c := c + text;
        RawRendered(ms);
      } else {
        assert c == sections + Render(RawBlocks(ms));
      }
      RenderAppend(Sections(ms, SectionCount), RawBlocks(ms));
      Associative(content, Render(Sections(ms, SectionCount)), Render(RawBlocks(ms)));
    } else {
      var text := "\n" + Str(requirements) + "\n\n";
      OtherRendered(requirements);
      c := content + text;
    }
  }

  /** The sections of the Word document after its front matter. */
  method AppendDocSections(front: seq<DocBlock>, requirements: Json) returns (doc: seq<DocBlock>)
    ensures doc == front + DocSections(requirements, DocSectionCount)
  {
    doc := front;
    for i := 0 to DocSectionCount
      invariant doc == front + DocSections(requirements, i)
    {
      doc := AppendDocSection(doc, requirements, i);
      DocSectionsStep(front, requirements, i);
    }
  }

  // ---------------------------------------------------------------------
  // The generator

  class SrsGenerator {
    const outputDir: string

    constructor (outputDir: string)
      ensures this.outputDir == outputDir
    {
      this.outputDir := outputDir;
    }

    /** `generate_markdown`: the path of the Markdown file and the text
        written to it. */
    method GenerateMarkdown(requirements: Json, projectName: string, timestamp: string)
      returns (path: string, content: string)
      ensures path == PathJoin(outputDir, MarkdownName(projectName))
      ensures content == Render(MarkdownBlocks(requirements, projectName, timestamp))
    {
      content := Render(Preamble(projectName, timestamp));
      content := AppendBody(content, requirements);
      content := content + Render(Appendix());
      MarkdownRendered(requirements, projectName, timestamp);
      path := PathJoin(outputDir, MarkdownName(projectName));
    }

    /** `generate_docx`: the path of the document and what it holds, or
        no path when the library is not installed. */
    method GenerateDocx(requirements: Json, projectName: string, date: string, docxInstalled: bool)
      returns (path: Option<string>, doc: seq<DocBlock>)
      ensures docxInstalled ==> path == Some(PathJoin(outputDir, DocxName(projectName)))
                                && doc == DocxBlocks(requirements, projectName, date)
      ensures !docxInstalled ==> path == None && doc == []
    {
      if !docxInstalled {
        return None, [];
      }
      doc := AppendDocSections(DocFront(projectName, date), requirements);
      path := Some(PathJoin(outputDir, DocxName(projectName)));
    }

    /** `save_json`: the requirements are saved as `requirements_<stem>.json`
        in the output directory, and that path is returned. The JSON text
        itself is not modelled. */
    method SaveJson(requirements: Json, projectName: string) returns (path: string)
      ensures path == PathJoin(outputDir, JsonName(projectName))
      ensures '/' !in projectName ==> Name(path) == JsonName(projectName)
    {
      path := PathJoin(outputDir, JsonName(projectName));
      if '/' !in projectName {
        OutputPathsNamed(outputDir, projectName);
      }
    }
  }
}
