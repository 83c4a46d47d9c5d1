/** The study page (src/lib/notion.ts): the page URL, the properties sent on
    creation and update, and the blocks of the page body.

    The Notion client calls are not modelled; their outcomes are parameters.
    The body is built as the source builds it, by pushing onto a growing list
    of blocks (`PageBuilder.blocks`). */
module Notion {
  import opened Wrappers
  import opened Text
  import opened Types

  // ---------------------------------------------------------------------------
  // Page creation and page URL

  const PageUrlPrefix: string := "https://notion.so/"

  /** `s.replace(/c/g, "")`. */
  function RemoveChar(s: string, c: char): (r: string)
    ensures c !in r
    ensures |r| <= |s|
    ensures forall x :: x in r ==> x in s
  {
    if s == [] then []
    else if s[0] == c then RemoveChar(s[1..], c)
    else [s[0]] + RemoveChar(s[1..], c)
  }

  /** The URL of a page, from its id. */
  function PageUrl(pageId: string): (r: string)
    ensures StartsWith(r, PageUrlPrefix)
    ensures '-' !in r[|PageUrlPrefix|..]
  {
    var r := PageUrlPrefix + RemoveChar(pageId, '-');
    assert r[|PageUrlPrefix|..] == RemoveChar(pageId, '-');
    PrefixOfConcat(PageUrlPrefix, RemoveChar(pageId, '-'));
    r
  }

  lemma {:induction false} RemoveCharAppend(a: string, b: string, c: char)
    ensures RemoveChar(a + b, c) == RemoveChar(a, c) + RemoveChar(b, c)
  {
    if a == [] {
      assert a + b == b;
    } else {
      assert (a + b)[1..] == a[1..] + b;
      RemoveCharAppend(a[1..], b, c);
    }
  }

  lemma {:induction false} RemoveCharAbsent(s: string, c: char)
    requires c !in s
    ensures RemoveChar(s, c) == s
  {
    if s != [] {
      RemoveCharAbsent(s[1..], c);
    }
  }

  /** Concatenation of all the parts. */
  function Concat(parts: seq<string>): string {
    if parts == [] then "" else parts[0] + Concat(parts[1..])
  }

  /** A dashed id such as a UUID loses exactly its dashes: the URL ends with
      the groups of the id run together. */
  lemma {:induction false} PageUrlOfDashedId(groups: seq<string>)
    requires |groups| >= 1 && forall i :: 0 <= i < |groups| ==> '-' !in groups[i]
    ensures PageUrl(Join(groups, "-")) == PageUrlPrefix + Concat(groups)
  {
    DashedIdGroups(groups);
  }

  lemma {:induction false} DashedIdGroups(groups: seq<string>)
    requires |groups| >= 1 && forall i :: 0 <= i < |groups| ==> '-' !in groups[i]
    ensures RemoveChar(Join(groups, "-"), '-') == Concat(groups)
  {
    RemoveCharAbsent(groups[0], '-');
    if |groups| == 1 {
      assert Concat(groups[1..]) == "";
    } else {
      var tail := Join(groups[1..], "-");
      assert Join(groups, "-") == groups[0] + ("-" + tail);
      RemoveCharAppend(groups[0], "-" + tail, '-');
      assert ("-" + tail)[0] == '-' && ("-" + tail)[1..] == tail;
      assert RemoveChar("-" + tail, '-') == RemoveChar(tail, '-');
      assert forall i :: 0 <= i < |groups[1..]| ==> groups[1..][i] == groups[i + 1];
      DashedIdGroups(groups[1..]);
      assert Concat(groups) == groups[0] + Concat(groups[1..]);
    }
  }

  /** The properties `createStudyPage` sends: the title, the source URLs one
      per line, and the status `Processing`. */
  datatype NewPageProperties = NewPageProperties(name: string, sourceUrls: string, status: string)

  function CreatePageProperties(topicName: string, urls: seq<string>): NewPageProperties {
    NewPageProperties(topicName, Join(urls, "\n"), "Processing")
  }

  /** The page carries the given title and the status `Processing`, and its
      list of source URLs splits back into the URLs, one per line. */
  lemma {:induction false} CreatePagePropertiesShape(topicName: string, urls: seq<string>)
    requires |urls| >= 1 && forall i :: 0 <= i < |urls| ==> '\n' !in urls[i]
    ensures CreatePageProperties(topicName, urls).name == topicName
    ensures CreatePageProperties(topicName, urls).status == "Processing"
    ensures Split(CreatePageProperties(topicName, urls).sourceUrls, '\n') == urls
  {
    SplitJoin(urls, '\n');
  }

  /** `createStudyPage`, given the outcome of the create call (the new page's id). */
  function CreateStudyPage(created: Try<string>): (r: Try<(string, string)>)
    ensures r.Ok? <==> created.Ok?
    ensures r.Ok? ==> r.value.0 == created.value && r.value.1 == PageUrl(created.value)
    ensures r.Threw? ==> r.thrown == created.thrown
  {
    match created
    case Ok(id) => Ok((id, PageUrl(id)))
    case Threw(e) => Threw(e)
  }

  /** The properties `updateStudyPage` sends: the status, and the title only
      when a non-empty topic is given. */
  datatype PageUpdate = PageUpdate(status: string, name: Option<string>)

  function UpdateProperties(status: string, topicName: Option<string>): (r: PageUpdate)
    ensures r.status == status
    ensures r.name.Some? <==> topicName.Some? && topicName.value != ""
    ensures r.name.Some? ==> r.name == topicName
  {
    PageUpdate(status, if topicName.Some? && topicName.value != "" then topicName else None)
  }

  // ---------------------------------------------------------------------------
  // Blocks

  /** A block of the page body. A `SourceBullet` is a bulleted item: the
      linked label, its link, and a plain note after it. A `Footnote` is the
      italic grey line at the foot of the page. */
  datatype Block =
    | Heading2(text: string)
    | Heading3(text: string)
    | SourceBullet(caption: string, link: string, note: string)
    | Divider
    | Paragraph(text: string)
    | Footnote(text: string)

  /** Notion's limit is 2000 characters per text; the code keeps a margin. */
  const MaxLength: nat := 1900

  function Paragraphs(cs: seq<string>): (r: seq<Block>)
    ensures |r| == |cs| && forall k :: 0 <= k < |cs| ==> r[k] == Paragraph(cs[k])
  {
    seq(|cs|, k requires 0 <= k < |cs| => Paragraph(cs[k]))
  }

  // ---------------------------------------------------------------------------
  // Chunking text into paragraphs (`addTextBlock`)

  /** The loop state of `addTextBlock`: the chunks emitted so far and `currentBlock`. */
  datatype ChunkState = ChunkState(done: seq<string>, cur: string)

  /** One turn of the loop, for one line. */
  function StepChunk(st: ChunkState, line: string): ChunkState {
    if |st.cur| + 1 + |line| > MaxLength then
      ChunkState(if st.cur != "" then st.done + [st.cur] else st.done, line)
    else
      ChunkState(st.done, if st.cur != "" then st.cur + "\n" + line else line)
  }

  /** The loop state after the given lines. */
  function FoldLines(lines: seq<string>): ChunkState
    decreases |lines|
  {
    if lines == [] then ChunkState([], "")
    else StepChunk(FoldLines(lines[..|lines| - 1]), lines[|lines| - 1])
  }

  lemma FoldLinesSnoc(lines: seq<string>, i: nat)
    requires i < |lines|
    ensures FoldLines(lines[..i + 1]) == StepChunk(FoldLines(lines[..i]), lines[i])
  {
    assert lines[..i + 1][..i] == lines[..i];
  }

  lemma ParagraphsSnoc(cs: seq<string>, c: string)
    ensures Paragraphs(cs + [c]) == Paragraphs(cs) + [Paragraph(c)]
  {
    assert forall k :: 0 <= k < |cs| ==> (cs + [c])[k] == cs[k];
  }

  /** The paragraphs' texts `addTextBlock(blocks, text)` pushes, in order. */
  function Chunks(text: string): seq<string> {
    var st := FoldLines(Split(text, '\n'));
    if st.cur != "" then st.done + [st.cur] else st.done
  }

  /** What the loop keeps true: emitted chunks are non-empty, and any chunk
      holding a line break fits the limit. */
  predicate ChunkStateOk(st: ChunkState) {
    (forall k :: 0 <= k < |st.done| ==> st.done[k] != "" && ('\n' in st.done[k] ==> |st.done[k]| <= MaxLength))
    && ('\n' in st.cur ==> |st.cur| <= MaxLength)
  }

  lemma {:induction false} FoldLinesOk(lines: seq<string>)
    requires forall i :: 0 <= i < |lines| ==> '\n' !in lines[i]
    ensures ChunkStateOk(FoldLines(lines))
    decreases |lines|
  {
    if lines != [] {
      var p := lines[..|lines| - 1];
      assert forall i :: 0 <= i < |p| ==> p[i] == lines[i];
      FoldLinesOk(p);
    }
  }

  /** Every chunk is non-empty; a chunk with a line break fits in 1900
      characters; so a chunk longer than 1900 characters is a single line of
      the text, and there is no other way past the limit. */
  lemma {:induction false} ChunksBounded(text: string)
    ensures forall k :: 0 <= k < |Chunks(text)| ==> Chunks(text)[k] != ""
    ensures forall k :: 0 <= k < |Chunks(text)| && '\n' in Chunks(text)[k] ==> |Chunks(text)[k]| <= MaxLength
    ensures forall k :: 0 <= k < |Chunks(text)| && |Chunks(text)[k]| > MaxLength ==> Chunks(text)[k] in Split(text, '\n')
  {
    var lines := Split(text, '\n');
    FoldLinesOk(lines);
    forall k | 0 <= k < |Chunks(text)| && |Chunks(text)[k]| > MaxLength
      ensures Chunks(text)[k] in lines
    {
      ChunksAreLineRuns(text);
      var sp := ChunkSpans(text);
      var c := Chunks(text)[k];
      var run := lines[sp[k].0..sp[k].1];
      assert c == Join(run, "\n");
      if |run| > 1 {
        assert false;
      }
      assert c == run[0] == lines[sp[k].0];
    }
  }

  // ---------------------------------------------------------------------------
  // Chunks are runs of consecutive lines

  /** Where each emitted chunk starts and ends (as line indices), and where
      the current chunk starts. */
  function SpanFold(lines: seq<string>): (r: (seq<(nat, nat)>, nat))
    ensures r.1 <= |lines|
    decreases |lines|
  {
    if lines == [] then ([], 0)
    else
      var n := |lines| - 1;
      var (sp, start) := SpanFold(lines[..n]);
      var st := FoldLines(lines[..n]);
      if |st.cur| + 1 + |lines[n]| > MaxLength then
        (if st.cur != "" then sp + [(start, n)] else sp, n)
      else
        (sp, if st.cur != "" then start else n)
  }

  /** The spans are in order, do not overlap, and lie before the current chunk. */
  predicate SpansOk(lines: seq<string>, done: seq<string>, sp: seq<(nat, nat)>, start: nat) {
    |sp| == |done| && start <= |lines|
    && (forall k :: 0 <= k < |sp| ==> sp[k].0 < sp[k].1 <= start)
    && (forall k :: 0 <= k < |sp| - 1 ==> sp[k].1 <= sp[k + 1].0)
    && (forall k :: 0 <= k < |sp| ==> done[k] == Join(lines[sp[k].0..sp[k].1], "\n"))
  }

  /** Spans over a prefix of the lines are spans over all of them. */
  lemma {:induction false} SpansExtend(lines: seq<string>, done: seq<string>, sp: seq<(nat, nat)>, start: nat)
    requires |lines| >= 1 && SpansOk(lines[..|lines| - 1], done, sp, start)
    ensures SpansOk(lines, done, sp, start)
  {
    var p := lines[..|lines| - 1];
    forall k | 0 <= k < |sp| ensures done[k] == Join(lines[sp[k].0..sp[k].1], "\n") {
      assert p[sp[k].0..sp[k].1] == lines[sp[k].0..sp[k].1];
    }
  }

  /** Closing the current chunk adds its span at the end. */
  lemma {:induction false} SpansPush(lines: seq<string>, done: seq<string>, sp: seq<(nat, nat)>, start: nat, n: nat)
    requires SpansOk(lines, done, sp, start) && start < n <= |lines|
    ensures SpansOk(lines, done + [Join(lines[start..n], "\n")], sp + [(start, n)], n)
  {
  }

  lemma {:induction false} SpanFoldOk(lines: seq<string>)
    ensures SpansOk(lines, FoldLines(lines).done, SpanFold(lines).0, SpanFold(lines).1)
    ensures FoldLines(lines).cur != "" ==>
              SpanFold(lines).1 < |lines| && FoldLines(lines).cur == Join(lines[SpanFold(lines).1..], "\n")
    decreases |lines|
  {
    if lines != [] {
      var n := |lines| - 1;
      var p := lines[..n];
      SpanFoldOk(p);
      var (sp, start) := SpanFold(p);
      var st := FoldLines(p);
      SpansExtend(lines, st.done, sp, start);
      if |st.cur| + 1 + |lines[n]| > MaxLength {
        if st.cur != "" {
          assert p[start..] == lines[start..n];
          SpansPush(lines, st.done, sp, start, n);
        }
        assert lines[n..] == [lines[n]];
      } else if st.cur != "" {
        assert p[start..] == lines[start..n];
        JoinAppend(lines[start..n], lines[n], "\n");
        assert lines[start..n] + [lines[n]] == lines[start..];
      } else {
        assert lines[n..] == [lines[n]];
      }
    }
  }

  /** The line spans of `Chunks(text)`. */
  function ChunkSpans(text: string): seq<(nat, nat)> {
    var lines := Split(text, '\n');
    var (sp, start) := SpanFold(lines);
    if FoldLines(lines).cur != "" then sp + [(start, |lines|)] else sp
  }

  /** Each chunk is a run of consecutive lines of the text joined by "\n";
      the runs are non-empty and follow one another in the order of the text. */
  lemma {:induction false} ChunksAreLineRuns(text: string)
    ensures |ChunkSpans(text)| == |Chunks(text)|
    ensures forall k :: 0 <= k < |ChunkSpans(text)| ==>
              ChunkSpans(text)[k].0 < ChunkSpans(text)[k].1 <= |Split(text, '\n')|
              && Chunks(text)[k] == Join(Split(text, '\n')[ChunkSpans(text)[k].0..ChunkSpans(text)[k].1], "\n")
    ensures forall k :: 0 <= k < |ChunkSpans(text)| - 1 ==> ChunkSpans(text)[k].1 <= ChunkSpans(text)[k + 1].0
  {
    var lines := Split(text, '\n');
    SpanFoldOk(lines);
    assert lines[SpanFold(lines).1..] == lines[SpanFold(lines).1..|lines|];
  }

  // ---------------------------------------------------------------------------
  // Short texts

  /** Empty text gives no paragraph. */
  lemma {:induction false} EmptyTextNoChunks()
    ensures Chunks("") == []
  {
    assert Split("", '\n') == [""];
    assert [""][..0] == [];
  }

  lemma {:induction false} JoinOfEmptyLines(lines: seq<string>)
    requires forall i :: 0 <= i < |lines| ==> lines[i] == ""
    ensures forall j :: 0 <= j < |Join(lines, "\n")| ==> Join(lines, "\n")[j] == '\n'
  {
    if |lines| > 1 {
      JoinOfEmptyLines(lines[1..]);
      assert Join(lines, "\n") == "\n" + Join(lines[1..], "\n");
    }
  }

  /** Below the limit the loop never flushes: the current chunk holds every
      line read so far, and is empty only while all of them are. */
  lemma {:induction false} ShortLinesOneChunk(lines: seq<string>)
    requires |Join(lines, "\n")| < MaxLength
    ensures FoldLines(lines).done == []
    ensures |FoldLines(lines).cur| <= |Join(lines, "\n")|
    ensures FoldLines(lines).cur == "" <==> forall j :: 0 <= j < |lines| ==> lines[j] == ""
    decreases |lines|
  {
    if lines != [] {
      var n := |lines| - 1;
      var p := lines[..n];
      if n == 0 {
        assert p == [];
      } else {
        JoinAppend(p, lines[n], "\n");
        assert p + [lines[n]] == lines;
        ShortLinesOneChunk(p);
      }
    }
  }

  /** A text of at most 1899 characters with some character other than a
      line break gives exactly one paragraph. */
  lemma {:induction false} ShortTextOneChunk(text: string)
    requires |text| < MaxLength
    requires exists j :: 0 <= j < |text| && text[j] != '\n'
    ensures |Chunks(text)| == 1
  {
    var lines := Split(text, '\n');
    ShortLinesOneChunk(lines);
    if FoldLines(lines).cur == "" {
      JoinOfEmptyLines(lines);
      assert false;
    }
  }

  // ---------------------------------------------------------------------------
  // The page body

  /** The caption of a source bullet: the upper-case platform and the URL. */
  function SourceBulletOf(t: TranscriptResult): Block {
    SourceBullet(Upper(PlatformTag(t.platform)) + ": " + t.url, t.url,
      if t.success then " (transcribed)" else " (failed: " + t.error.GetOr("undefined") + ")")
  }

  function SourceBullets(ts: seq<TranscriptResult>): (r: seq<Block>)
    ensures |r| == |ts| && forall k :: 0 <= k < |ts| ==> r[k] == SourceBulletOf(ts[k])
  {
    seq(|ts|, k requires 0 <= k < |ts| => SourceBulletOf(ts[k]))
  }

  lemma SourceBulletsSnoc(ts: seq<TranscriptResult>, k: nat)
    requires k < |ts|
    ensures SourceBullets(ts[..k + 1]) == SourceBullets(ts[..k]) + [SourceBulletOf(ts[k])]
  {
    assert forall j :: 0 <= j < k ==> ts[..k + 1][j] == ts[..k][j];
  }

  /** The blocks after `addTextBlock(blocks, text)`. */
  function WithText(acc: seq<Block>, text: string): seq<Block> {
    acc + Paragraphs(Chunks(text))
  }

  /** The blocks after a level-2 heading and the paragraphs of a text. */
  function WithSection(acc: seq<Block>, title: string, text: string): seq<Block> {
    WithText(acc + [Heading2(title)], text)
  }

  /** The blocks after the five summary sections, in their fixed order. */
  function WithSummary(acc: seq<Block>, summary: SummaryResult, studyQuestions: string): seq<Block> {
    var a1 := WithSection(acc, "Summary", summary.summary);
    var a2 := WithSection(a1, "Key Takeaways", summary.keyTakeaways);
    var a3 := WithSection(a2, "How to Apply This", summary.howToApply);
    var a4 := WithSection(a3, "Study Questions", studyQuestions);
    WithSection(a4, "Connections and Patterns", summary.connectionsAndPatterns)
  }

  /** "Source n: PLATFORM". */
  function SourceHeading(n: nat, t: TranscriptResult): string {
    "Source " + NatToString(n) + ": " + Upper(PlatformTag(t.platform))
  }

  /** The blocks after the first `n` of the given (successful) transcripts,
      each as a numbered level-3 heading and its paragraphs. */
  function WithTranscripts(acc: seq<Block>, s: seq<TranscriptResult>, n: nat): seq<Block>
    requires n <= |s|
  {
    if n == 0 then acc
    else WithText(WithTranscripts(acc, s, n - 1) + [Heading3(SourceHeading(n, s[n - 1]))], s[n - 1].transcript)
  }

  /** The source list: a heading, one bullet per transcript, a divider. */
  function PageTop(ts: seq<TranscriptResult>): seq<Block> {
    [Heading2("Source URLs")] + SourceBullets(ts) + [Divider]
  }

  /** The source list, the summary sections, a divider, and the heading of the
      combined transcript. */
  function PageMiddle(ts: seq<TranscriptResult>, summary: SummaryResult, studyQuestions: string): seq<Block> {
    WithSummary(PageTop(ts), summary, studyQuestions) + [Divider] + [Heading2("Combined Transcript")]
  }

  /** The whole page body, with the study-questions text given explicitly. */
  function PageLayout(ts: seq<TranscriptResult>, summary: SummaryResult, studyQuestions: string,
                      processedOn: string): seq<Block> {
    var s := Successful(ts);
    WithTranscripts(PageMiddle(ts, summary, studyQuestions), s, |s|) + [Divider] + [Footnote("Processed on " + processedOn)]
  }

  class PageBuilder {
    var blocks: seq<Block>

    constructor()
      ensures blocks == []
    {
      blocks := [];
    }

    /** `blocks.push(b)`. */
    method Push(b: Block)
      modifies this
      ensures blocks == old(blocks) + [b]
    {
      blocks := blocks + [b];
    }

    /** `addTextBlock(blocks, text)`: pushes the chunks of `text` as paragraphs;
        what was there before is left as it is. */
    method AddTextBlock(text: string)
      modifies this
      ensures blocks == old(blocks) + Paragraphs(Chunks(text))
    {
      var lines := Split(text, '\n');
      var current := "";
      ghost var before := blocks;
      var i := 0;
      while i < |lines|
        invariant 0 <= i <= |lines|
        invariant current == FoldLines(lines[..i]).cur
        invariant blocks == before + Paragraphs(FoldLines(lines[..i]).done)
      {
        var line := lines[i];
        FoldLinesSnoc(lines, i);
        ghost var done := FoldLines(lines[..i]).done;
        if |current| + 1 + |line| > MaxLength {
          if current != "" {
            Push(Paragraph(current));
            ParagraphsSnoc(done, current);
          }
          current := line;
        } else {
          current := if current != "" then current + "\n" + line else line;
        }
        i := i + 1;
      }
      assert lines[..|lines|] == lines;
      if current != "" {
        ghost var done := FoldLines(lines).done;
        Push(Paragraph(current));
        ParagraphsSnoc(done, current);
      }
    }

    /** A heading followed by `addTextBlock` of its text. */
    method AddSection(title: string, text: string)
      modifies this
      ensures blocks == WithSection(old(blocks), title, text)
    {
      Push(Heading2(title));
      AddTextBlock(text);
    }

    method AddSummarySections(summary: SummaryResult, studyQuestions: string)
      modifies this
      ensures blocks == WithSummary(old(blocks), summary, studyQuestions)
    {
      AddSection("Summary", summary.summary);
      AddSection("Key Takeaways", summary.keyTakeaways);
      AddSection("How to Apply This", summary.howToApply);
      AddSection("Study Questions", studyQuestions);
      AddSection("Connections and Patterns", summary.connectionsAndPatterns);
    }

    /** The `forEach` over the successful transcripts. */
    method AddTranscriptSections(s: seq<TranscriptResult>)
      modifies this
      ensures blocks == WithTranscripts(old(blocks), s, |s|)
    {
      ghost var before := blocks;
      var k := 0;
      while k < |s|
        invariant 0 <= k <= |s|
        invariant blocks == WithTranscripts(before, s, k)
      {
        Push(Heading3(SourceHeading(k + 1, s[k])));
        AddTextBlock(s[k].transcript);
        k := k + 1;
      }
    }

    /** The `forEach` over all transcripts. */
    method AddSourceBullets(ts: seq<TranscriptResult>)
      modifies this
      ensures blocks == old(blocks) + SourceBullets(ts)
    {
      ghost var before := blocks;
      var k := 0;
      while k < |ts|
        invariant 0 <= k <= |ts|
        invariant blocks == before + SourceBullets(ts[..k])
      {
        Push(SourceBulletOf(ts[k]));
        SourceBulletsSnoc(ts, k);
        k := k + 1;
      }
      assert ts[..|ts|] == ts;
    }
  }

  /** The body of `buildPageContent`, with the study-questions text given. */
  method BuildPageWith(ts: seq<TranscriptResult>, summary: SummaryResult, studyQuestions: string,
                       processedOn: string) returns (blocks: seq<Block>)
    ensures blocks == PageLayout(ts, summary, studyQuestions, processedOn)
  {
    var b := new PageBuilder();
    b.Push(Heading2("Source URLs"));
    b.AddSourceBullets(ts);
    b.Push(Divider);
    assert b.blocks == PageTop(ts);
    b.AddSummarySections(summary, studyQuestions);
    b.Push(Divider);
    b.Push(Heading2("Combined Transcript"));
    ghost var middle := PageMiddle(ts, summary, studyQuestions);
    assert b.blocks == middle;
    var successes := Successful(ts);
    b.AddTranscriptSections(successes);
    ghost var body := WithTranscripts(middle, successes, |successes|);
    assert b.blocks == body;
    b.Push(Divider);
    b.Push(Footnote("Processed on " + processedOn));
    assert b.blocks == body + [Divider] + [Footnote("Processed on " + processedOn)];
    blocks := b.blocks;
  }

  /** `buildPageContent` as written: line 183 hands the optional
      `summary.studyQuestions` to `addTextBlock`, which needs a string. */
  method BuildPageContentAsWritten(ts: seq<TranscriptResult>, summary: SummaryResult,
                                   processedOn: string) returns (blocks: seq<Block>)
    requires summary.studyQuestions.Some?
    ensures blocks == PageLayout(ts, summary, summary.studyQuestions.value, processedOn)
  {
    blocks := BuildPageWith(ts, summary, summary.studyQuestions.value, processedOn);
  }

  /** `buildPageContent`, with a missing `studyQuestions` read as empty text:
      the section heading stays and no paragraph follows it. */
  method BuildPageContent(ts: seq<TranscriptResult>, summary: SummaryResult,
                          processedOn: string) returns (blocks: seq<Block>)
    ensures blocks == PageLayout(ts, summary, summary.studyQuestions.GetOr(""), processedOn)
  {
    blocks := BuildPageWith(ts, summary, summary.studyQuestions.GetOr(""), processedOn);
  }

  // ---------------------------------------------------------------------------
  // Properties of the layout

  /** The texts of the level-2 headings, in order. */
  function Headings2(bs: seq<Block>): seq<string> {
    if bs == [] then [] else (if bs[0].Heading2? then [bs[0].text] else []) + Headings2(bs[1..])
  }

  /** The texts of the level-3 headings, in order. */
  function Headings3(bs: seq<Block>): seq<string> {
    if bs == [] then [] else (if bs[0].Heading3? then [bs[0].text] else []) + Headings3(bs[1..])
  }

  /** The bulleted items, in order. */
  function Bullets(bs: seq<Block>): seq<Block> {
    if bs == [] then [] else (if bs[0].SourceBullet? then [bs[0]] else []) + Bullets(bs[1..])
  }

  lemma {:induction false} SelectAppend(a: seq<Block>, b: seq<Block>)
    ensures Headings2(a + b) == Headings2(a) + Headings2(b)
    ensures Headings3(a + b) == Headings3(a) + Headings3(b)
    ensures Bullets(a + b) == Bullets(a) + Bullets(b)
  {
    Headings2Append(a, b);
    Headings3Append(a, b);
    BulletsAppend(a, b);
  }

  lemma {:induction false} Headings2Append(a: seq<Block>, b: seq<Block>)
    ensures Headings2(a + b) == Headings2(a) + Headings2(b)
  {
    if a == [] {
      assert a + b == b;
    } else {
      assert (a + b)[0] == a[0];
      assert (a + b)[1..] == a[1..] + b;
      Headings2Append(a[1..], b);
      var h := if a[0].Heading2? then [a[0].text] else [];
      assert Headings2(a + b) == h + Headings2(a[1..] + b);
      assert h + (Headings2(a[1..]) + Headings2(b)) == (h + Headings2(a[1..])) + Headings2(b);
    }
  }

  lemma {:induction false} Headings3Append(a: seq<Block>, b: seq<Block>)
    ensures Headings3(a + b) == Headings3(a) + Headings3(b)
  {
    if a == [] {
      assert a + b == b;
    } else {
      assert (a + b)[0] == a[0];
      assert (a + b)[1..] == a[1..] + b;
      Headings3Append(a[1..], b);
      var h := if a[0].Heading3? then [a[0].text] else [];
      assert Headings3(a + b) == h + Headings3(a[1..] + b);
      assert h + (Headings3(a[1..]) + Headings3(b)) == (h + Headings3(a[1..])) + Headings3(b);
    }
  }

  lemma {:induction false} BulletsAppend(a: seq<Block>, b: seq<Block>)
    ensures Bullets(a + b) == Bullets(a) + Bullets(b)
  {
    if a == [] {
      assert a + b == b;
    } else {
      assert (a + b)[0] == a[0];
      assert (a + b)[1..] == a[1..] + b;
      BulletsAppend(a[1..], b);
      var h := if a[0].SourceBullet? then [a[0]] else [];
      assert Bullets(a + b) == h + Bullets(a[1..] + b);
      assert h + (Bullets(a[1..]) + Bullets(b)) == (h + Bullets(a[1..])) + Bullets(b);
    }
  }

  lemma {:induction false} SelectOne(b: Block, rest: seq<Block>)
    ensures Headings2([b] + rest) == (if b.Heading2? then [b.text] else []) + Headings2(rest)
    ensures Headings3([b] + rest) == (if b.Heading3? then [b.text] else []) + Headings3(rest)
    ensures Bullets([b] + rest) == (if b.SourceBullet? then [b] else []) + Bullets(rest)
  {
    assert ([b] + rest)[1..] == rest;
  }

  lemma {:induction false} SelectParagraphs(cs: seq<string>)
    ensures Headings2(Paragraphs(cs)) == [] && Headings3(Paragraphs(cs)) == [] && Bullets(Paragraphs(cs)) == []
  {
    if cs != [] {
      assert Paragraphs(cs)[1..] == Paragraphs(cs[1..]);
      SelectParagraphs(cs[1..]);
    }
  }

  lemma {:induction false} SelectBullets(ts: seq<TranscriptResult>)
    ensures Headings2(SourceBullets(ts)) == [] && Headings3(SourceBullets(ts)) == []
    ensures Bullets(SourceBullets(ts)) == SourceBullets(ts)
  {
    if ts != [] {
      var r := SourceBullets(ts);
      assert r[1..] == SourceBullets(ts[1..]);
      SelectBullets(ts[1..]);
      assert r[0].SourceBullet?;
      SelectOne(r[0], r[1..]);
      assert [r[0]] + r[1..] == r;
    }
  }

  /** What a chunked text adds to the selections: nothing. */
  lemma {:induction false} SelectWithText(acc: seq<Block>, text: string)
    ensures Headings2(WithText(acc, text)) == Headings2(acc)
    ensures Headings3(WithText(acc, text)) == Headings3(acc)
    ensures Bullets(WithText(acc, text)) == Bullets(acc)
  {
    SelectAppend(acc, Paragraphs(Chunks(text)));
    SelectParagraphs(Chunks(text));
  }

  lemma {:induction false} SelectPush(acc: seq<Block>, b: Block)
    ensures Headings2(acc + [b]) == Headings2(acc) + (if b.Heading2? then [b.text] else [])
    ensures Headings3(acc + [b]) == Headings3(acc) + (if b.Heading3? then [b.text] else [])
    ensures Bullets(acc + [b]) == Bullets(acc) + (if b.SourceBullet? then [b] else [])
  {
    SelectAppend(acc, [b]);
    SelectOne(b, []);
    assert [b] + [] == [b];
  }

  lemma {:induction false} SelectSection(acc: seq<Block>, title: string, text: string)
    ensures Headings2(WithSection(acc, title, text)) == Headings2(acc) + [title]
    ensures Headings3(WithSection(acc, title, text)) == Headings3(acc)
    ensures Bullets(WithSection(acc, title, text)) == Bullets(acc)
  {
    SelectPush(acc, Heading2(title));
    SelectWithText(acc + [Heading2(title)], text);
  }

  /** The headings of the combined-transcript section: "Source k: PLATFORM",
      one per transcript, numbered from 1. */
  function SourceHeadings(s: seq<TranscriptResult>, n: nat): (r: seq<string>)
    requires n <= |s|
    ensures |r| == n && forall k :: 0 <= k < n ==> r[k] == SourceHeading(k + 1, s[k])
  {
    seq(n, k requires 0 <= k < n => SourceHeading(k + 1, s[k]))
  }

  lemma {:induction false} SourceHeadingsSnoc(s: seq<TranscriptResult>, n: nat)
    requires 0 < n <= |s|
    ensures SourceHeadings(s, n) == SourceHeadings(s, n - 1) + [SourceHeading(n, s[n - 1])]
  {
  }

  lemma {:induction false} SelectTranscripts(acc: seq<Block>, s: seq<TranscriptResult>, n: nat)
    requires n <= |s|
    ensures Headings2(WithTranscripts(acc, s, n)) == Headings2(acc)
    ensures Bullets(WithTranscripts(acc, s, n)) == Bullets(acc)
    ensures Headings3(WithTranscripts(acc, s, n)) == Headings3(acc) + SourceHeadings(s, n)
  {
    if n == 0 {
      assert SourceHeadings(s, 0) == [];
    } else {
      SelectTranscripts(acc, s, n - 1);
      var mid := WithTranscripts(acc, s, n - 1);
      var title := SourceHeading(n, s[n - 1]);
      SelectTranscriptStep(mid, title, s[n - 1].transcript);
      assert WithTranscripts(acc, s, n) == WithText(mid + [Heading3(title)], s[n - 1].transcript);
      SourceHeadingsSnoc(s, n);
      Snoc3(Headings3(acc), SourceHeadings(s, n - 1), title);
    }
  }

  /** One transcript section: a level-3 heading and the paragraphs. */
  lemma {:induction false} SelectTranscriptStep(mid: seq<Block>, title: string, text: string)
    ensures Headings2(WithText(mid + [Heading3(title)], text)) == Headings2(mid)
    ensures Bullets(WithText(mid + [Heading3(title)], text)) == Bullets(mid)
    ensures Headings3(WithText(mid + [Heading3(title)], text)) == Headings3(mid) + [title]
  {
    SelectPush(mid, Heading3(title));
    SelectWithText(mid + [Heading3(title)], text);
    assert Headings2(mid) + [] == Headings2(mid);
    assert Bullets(mid) + [] == Bullets(mid);
  }

  lemma {:induction false} Snoc3<T>(a: seq<T>, b: seq<T>, x: T)
    ensures (a + b) + [x] == a + (b + [x])
  {
  }

  lemma {:induction false} SelectSummary(acc: seq<Block>, summary: SummaryResult, sq: string)
    ensures Headings2(WithSummary(acc, summary, sq)) == Headings2(acc) +
              ["Summary", "Key Takeaways", "How to Apply This", "Study Questions", "Connections and Patterns"]
    ensures Headings3(WithSummary(acc, summary, sq)) == Headings3(acc)
    ensures Bullets(WithSummary(acc, summary, sq)) == Bullets(acc)
  {
    var a1 := WithSection(acc, "Summary", summary.summary);
    var a2 := WithSection(a1, "Key Takeaways", summary.keyTakeaways);
    var a3 := WithSection(a2, "How to Apply This", summary.howToApply);
    var a4 := WithSection(a3, "Study Questions", sq);
    var a5 := WithSection(a4, "Connections and Patterns", summary.connectionsAndPatterns);
    assert WithSummary(acc, summary, sq) == a5;
    SelectSection(acc, "Summary", summary.summary);
    SelectSection(a1, "Key Takeaways", summary.keyTakeaways);
    SelectSection(a2, "How to Apply This", summary.howToApply);
    SelectSection(a3, "Study Questions", sq);
    SelectSection(a4, "Connections and Patterns", summary.connectionsAndPatterns);
    FiveTitles(Headings2(acc), "Summary", "Key Takeaways", "How to Apply This", "Study Questions",
               "Connections and Patterns");
  }

  lemma {:induction false} FiveTitles(h: seq<string>, a: string, b: string, c: string, d: string, e: string)
    ensures h + [a] + [b] + [c] + [d] + [e] == h + [a, b, c, d, e]
  {
  }

  const SectionTitles: seq<string> := ["Source URLs", "Summary", "Key Takeaways", "How to Apply This",
                                       "Study Questions", "Connections and Patterns", "Combined Transcript"]

  lemma {:induction false} SelectTop(ts: seq<TranscriptResult>)
    ensures Headings2(PageTop(ts)) == ["Source URLs"]
    ensures Headings3(PageTop(ts)) == [] && Bullets(PageTop(ts)) == SourceBullets(ts)
  {
    var h := [Heading2("Source URLs")];
    SelectPush([], Heading2("Source URLs"));
    assert [] + h == h;
    SelectBullets(ts);
    SelectAppend(h, SourceBullets(ts));
    SelectPush(h + SourceBullets(ts), Divider);
  }

  lemma {:induction false} SevenTitles(a: string, b: string, c: string, d: string, e: string, f: string, g: string)
    ensures [a] + [b, c, d, e, f] + [g] == [a, b, c, d, e, f, g]
  {
  }

  lemma {:induction false} SelectMiddle(ts: seq<TranscriptResult>, summary: SummaryResult, sq: string)
    ensures Headings2(PageMiddle(ts, summary, sq)) == SectionTitles
    ensures Headings3(PageMiddle(ts, summary, sq)) == [] && Bullets(PageMiddle(ts, summary, sq)) == SourceBullets(ts)
  {
    SelectTop(ts);
    SelectSummary(PageTop(ts), summary, sq);
    var w := WithSummary(PageTop(ts), summary, sq);
    SelectPush(w, Divider);
    SelectPush(w + [Divider], Heading2("Combined Transcript"));
    SevenTitles("Source URLs", "Summary", "Key Takeaways", "How to Apply This",
                "Study Questions", "Connections and Patterns", "Combined Transcript");
    assert PageMiddle(ts, summary, sq) == w + [Divider] + [Heading2("Combined Transcript")];
  }

  /** The page has exactly the fixed level-2 headings, in the fixed order; one
      bullet per transcript, in order; and one "Source k" heading per
      successful transcript, numbered from 1. */
  lemma {:induction false} PageSections(ts: seq<TranscriptResult>, summary: SummaryResult, sq: string, processedOn: string)
    ensures Headings2(PageLayout(ts, summary, sq, processedOn)) == SectionTitles
    ensures Bullets(PageLayout(ts, summary, sq, processedOn)) == SourceBullets(ts)
    ensures Headings3(PageLayout(ts, summary, sq, processedOn)) == SourceHeadings(Successful(ts), |Successful(ts)|)
  {
    var s := Successful(ts);
    var middle := PageMiddle(ts, summary, sq);
    SelectMiddle(ts, summary, sq);
    SelectTranscripts(middle, s, |s|);
    var wt := WithTranscripts(middle, s, |s|);
    var foot := Footnote("Processed on " + processedOn);
    SelectPush(wt, Divider);
    SelectPush(wt + [Divider], foot);
    assert PageLayout(ts, summary, sq, processedOn) == wt + [Divider] + [foot];
    assert Headings3(wt) == [] + SourceHeadings(s, |s|);
    assert [] + SourceHeadings(s, |s|) == SourceHeadings(s, |s|);
  }

  // ---------------------------------------------------------------------------
  // Publishing the finished page

  /** What reading `.split` of `undefined` throws. */
  const SplitOfUndefined: Thrown := ErrorWithMessage("Cannot read properties of undefined (reading 'split')")

  /** The two versions of the publishing code: line 183 as written, which
      hands `summary.studyQuestions` over as it is, and the corrected one,
      which reads a missing value as empty text. */
  datatype PageCode = AsWritten | Corrected

  /** `updateStudyPage`, given the outcomes of its two client calls: the
      update of the page properties, then the append of the body. The result
      is the list of blocks appended, or what was thrown. As written, a
      summary without study questions throws inside `buildPageContent`:
      after the properties were updated, before anything is appended. */
  function UpdateStudyPage(code: PageCode, updated: Try<()>, appended: Try<()>, ts: seq<TranscriptResult>,
                           summary: SummaryResult, processedOn: string): (r: Try<seq<Block>>)
    ensures updated.Threw? ==> r == Threw(updated.thrown)
    ensures code.AsWritten? && updated.Ok? && summary.studyQuestions.None? ==> r == Threw(SplitOfUndefined)
    ensures r.Ok? <==> updated.Ok? && appended.Ok? && (code.Corrected? || summary.studyQuestions.Some?)
    ensures r.Ok? ==> r.value == PageLayout(ts, summary, summary.studyQuestions.GetOr(""), processedOn)
    ensures (code.Corrected? || summary.studyQuestions.Some?) && updated.Ok? && appended.Threw? ==>
              r == Threw(appended.thrown)
  {
    match updated
    case Threw(e) => Threw(e)
    case Ok(_) =>
      if code.AsWritten? && summary.studyQuestions.None? then Threw(SplitOfUndefined)
      else
        match appended
        case Threw(e) => Threw(e)
        case Ok(_) => Ok(PageLayout(ts, summary, summary.studyQuestions.GetOr(""), processedOn))
  }

  /** The two versions differ only on summaries without study questions. */
  lemma {:induction false} PageCodesAgree(updated: Try<()>, appended: Try<()>, ts: seq<TranscriptResult>,
                       summary: SummaryResult, processedOn: string)
    ensures summary.studyQuestions.Some? ==>
              UpdateStudyPage(AsWritten, updated, appended, ts, summary, processedOn) ==
              UpdateStudyPage(Corrected, updated, appended, ts, summary, processedOn)
    ensures summary.studyQuestions.None? && updated.Ok? && appended.Ok? ==>
              UpdateStudyPage(AsWritten, updated, appended, ts, summary, processedOn).Threw? &&
              UpdateStudyPage(Corrected, updated, appended, ts, summary, processedOn).Ok?
  {
  }
}
