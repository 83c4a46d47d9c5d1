/** The summariser helpers (src/lib/claude.ts): which transcripts are sent,
    how the prompt is put together, how the reply is read back, and how the
    topic title is cut to five words.

    The model call itself is not modelled: its outcome is a parameter. */
module Claude {
  import opened Wrappers
  import opened Text
  import opened Types

  /** The outcome of `anthropic.messages.create`, as far as the code looks at
      it: the first content block is text, or it is some other kind, or the
      call threw. */
  datatype Reply = TextBlock(text: string) | OtherBlock | CallThrew(thrown: Thrown)

  const StudyPrompt: string :=
    "Distill this content into 3-5 key takeaways.\n\nRULES:\n- Each point on its own line\n- Start each with \"\U{2022} \" (bullet)\n- One sentence per bullet, max 15 words\n- No intro text, just bullets\n- No markdown\n\n---\n\nContent:\n\n"

  const SectionSeparator: string := "\n\n---\n\n"

  const NoSuccessesMessage: string := "No successful transcripts to summarize"

  const UnexpectedReplyMessage: string := "Unexpected response type from Claude"

  const DefaultTopic: string := "Study Session"

  const TopicInstruction: string :=
    "Based on this transcript excerpt, generate a concise topic title (MAXIMUM 5 words) that describes what this content is about. Be specific and descriptive. Only respond with the title, nothing else.\n\nTranscript: "

  const SampleLength: nat := 500

  const MaxTitleWords: nat := 5

  /** One transcript as it appears in the prompt, numbered `n`. */
  function FormatSource(n: nat, t: TranscriptResult): string {
    "### Source " + NatToString(n) + ": " + Upper(PlatformTag(t.platform)) + "\nURL: " + t.url + "\n\n" + t.transcript
  }

  /** The successful transcripts, formatted and numbered from 1. */
  function Sections(ts: seq<TranscriptResult>): (r: seq<string>)
    ensures |r| == |Successful(ts)|
    ensures forall k :: 0 <= k < |r| ==> r[k] == FormatSource(k + 1, Successful(ts)[k])
  {
    var s := Successful(ts);
    seq(|s|, k requires 0 <= k < |s| => FormatSource(k + 1, s[k]))
  }

  /** `The topic is: "…"` when a non-empty topic is given, else nothing. */
  function TopicContext(topic: Option<string>): string {
    if topic.Some? && topic.value != "" then "The topic is: \"" + topic.value + "\"\n\n" else ""
  }

  /** The request `generateStudySummary` sends, or the error it throws first. */
  function SummaryPrompt(ts: seq<TranscriptResult>, topic: Option<string>): (r: Try<string>)
    ensures r.Threw? <==> Successful(ts) == []
    ensures r.Threw? ==> r.thrown == ErrorWithMessage(NoSuccessesMessage)
    ensures Successful(ts) != [] ==> r == Ok(TopicContext(topic) + StudyPrompt + Join(Sections(ts), SectionSeparator))
  {
    if Successful(ts) == [] then Threw(ErrorWithMessage(NoSuccessesMessage))
    else Ok(TopicContext(topic) + StudyPrompt + Join(Sections(ts), SectionSeparator))
  }

  /** `parseClaudeResponse`: the trimmed reply is the summary; the other
      sections are empty and there are no study questions. */
  function ParseClaudeResponse(text: string): (r: SummaryResult)
    ensures r.summary == Trim(text)
    ensures Trimmed(r.summary) && |r.summary| <= |text|
    ensures r.summary == [] <==> AllSpace(text)
    ensures r.keyTakeaways == "" && r.howToApply == "" && r.connectionsAndPatterns == ""
    ensures r.studyQuestions.None?
  {
    SummaryResult(Trim(text), "", "", None, "")
  }

  /** `generateStudySummary`, given the outcome of the model call. */
  function GenerateStudySummary(ts: seq<TranscriptResult>, topic: Option<string>, reply: Reply): (r: Try<SummaryResult>)
    ensures Successful(ts) == [] ==> r == Threw(ErrorWithMessage(NoSuccessesMessage))
    ensures Successful(ts) != [] ==> (r.Ok? <==> reply.TextBlock?)
    ensures Successful(ts) != [] && reply.OtherBlock? ==> r == Threw(ErrorWithMessage(UnexpectedReplyMessage))
    ensures Successful(ts) != [] && reply.CallThrew? ==> r == Threw(reply.thrown)
    ensures r.Ok? ==> reply.TextBlock? && r.value == ParseClaudeResponse(reply.text)
    ensures r.Ok? ==> r.value.studyQuestions.None? && Trimmed(r.value.summary)
  {
    match SummaryPrompt(ts, topic)
    case Threw(e) => Threw(e)
    case Ok(_) =>
      match reply
      case TextBlock(text) => Ok(ParseClaudeResponse(text))
      case OtherBlock => Threw(ErrorWithMessage(UnexpectedReplyMessage))
      case CallThrew(e) => Threw(e)
  }

  /** `s.slice(0, n)`. */
  function Take(s: string, n: nat): (r: string)
    ensures |r| <= n && StartsWith(s, r)
    ensures |s| <= n ==> r == s
  {
    if |s| <= n then s else s[..n]
  }

  /** The request `generateTopicName` sends, when it sends one: the
      instruction and the first 500 characters of the first success. */
  function TopicPrompt(ts: seq<TranscriptResult>): (r: Option<string>)
    ensures r.None? <==> Successful(ts) == []
    ensures r.Some? ==> r.value == TopicInstruction + Take(Successful(ts)[0].transcript, SampleLength)
    ensures r.Some? ==> StartsWith(r.value, TopicInstruction)
    ensures r.Some? ==> |r.value| <= |TopicInstruction| + SampleLength
  {
    var s := Successful(ts);
    if s == [] then None else Some(TopicInstruction + Take(s[0].transcript, SampleLength))
  }

  /** The title read from a text reply: trimmed, cut to its first five
      words, and the default when nothing is left. */
  function TitleOf(text: string): string {
    var title := Trim(text);
    var words := SplitOnSpaceRuns(title);
    if |words| > MaxTitleWords then Join(words[..MaxTitleWords], " ")
    else if title != "" then title
    else DefaultTopic
  }

  /** `generateTopicName`, given the outcome of the model call. It never throws. */
  function GenerateTopicName(ts: seq<TranscriptResult>, reply: Reply): (r: string)
    ensures Successful(ts) == [] || !reply.TextBlock? ==> r == DefaultTopic
    ensures Successful(ts) != [] && reply.TextBlock? ==> r == TitleOf(reply.text)
  {
    if Successful(ts) == [] then DefaultTopic
    else
      match reply
      case TextBlock(text) => TitleOf(text)
      case OtherBlock => DefaultTopic
      case CallThrew(_) => DefaultTopic
  }

  // ---------------------------------------------------------------------------
  // Properties of the prompt

  /** Filtering twice is filtering once. */
  lemma {:induction false} SuccessfulIdempotent(ts: seq<TranscriptResult>)
    ensures Successful(Successful(ts)) == Successful(ts)
  {
    if ts != [] {
      SuccessfulIdempotent(ts[1..]);
      if ts[0].success {
        assert ([ts[0]] + Successful(ts[1..]))[1..] == Successful(ts[1..]);
      }
    }
  }

  /** Filtering distributes over concatenation. */
  lemma {:induction false} SuccessfulAppend(a: seq<TranscriptResult>, b: seq<TranscriptResult>)
    ensures Successful(a + b) == Successful(a) + Successful(b)
  {
    if a == [] {
      assert a + b == b;
    } else {
      assert (a + b)[1..] == a[1..] + b;
      SuccessfulAppend(a[1..], b);
    }
  }

  /** A failed transcript, wherever it sits, changes nothing in the prompt. */
  lemma {:induction false} FailedTranscriptIgnored(a: seq<TranscriptResult>, t: TranscriptResult, b: seq<TranscriptResult>, topic: Option<string>)
    requires !t.success
    ensures SummaryPrompt(a + [t] + b, topic) == SummaryPrompt(a + b, topic)
  {
    SuccessfulAppend(a + [t], b);
    SuccessfulAppend(a, [t]);
    assert Successful([t]) == [] by {
      assert [t][1..] == [];
    }
    SuccessfulAppend(a, b);
    assert Successful(a) + [] == Successful(a);
  }

  /** Sending only the successes gives the same prompt as sending everything. */
  lemma {:induction false} PromptOfSuccesses(ts: seq<TranscriptResult>, topic: Option<string>)
    ensures SummaryPrompt(Successful(ts), topic) == SummaryPrompt(ts, topic)
  {
    SuccessfulIdempotent(ts);
  }

  /** The prompt starts with the topic line exactly when a non-empty topic is
      given, and otherwise starts with the instructions. */
  lemma {:induction false} PromptStart(ts: seq<TranscriptResult>, topic: Option<string>)
    requires Successful(ts) != []
    ensures topic.Some? && topic.value != "" ==>
              StartsWith(SummaryPrompt(ts, topic).value, "The topic is: \"" + topic.value + "\"\n\n")
    ensures !(topic.Some? && topic.value != "") ==> StartsWith(SummaryPrompt(ts, topic).value, StudyPrompt)
  {
    var c := TopicContext(topic);
    var body := Join(Sections(ts), SectionSeparator);
    assert SummaryPrompt(ts, topic).value == c + StudyPrompt + body;
    PrefixOfThree(c, StudyPrompt, body);
  }

  /** One success gives exactly one section, numbered 1, whatever failed around it. */
  lemma {:induction false} SingleSuccessPrompt(a: seq<TranscriptResult>, t: TranscriptResult, topic: Option<string>)
    requires t.success && forall i :: 0 <= i < |a| ==> !a[i].success
    ensures SummaryPrompt(a + [t], topic) == Ok(TopicContext(topic) + StudyPrompt + FormatSource(1, t))
  {
    SuccessfulAppend(a, [t]);
    assert Successful([t]) == [t] by {
      assert [t][1..] == [];
    }
    assert Successful(a) == [];
    assert Successful(a + [t]) == [t];
    assert Sections(a + [t]) == [FormatSource(1, t)];
  }

  /** One more success adds its section, numbered after the others, behind
      the separator. */
  lemma {:induction false} SuccessAppendsSection(a: seq<TranscriptResult>, t: TranscriptResult, topic: Option<string>)
    requires t.success && Successful(a) != []
    ensures SummaryPrompt(a + [t], topic) ==
              Ok(SummaryPrompt(a, topic).value + SectionSeparator + FormatSource(|Successful(a)| + 1, t))
  {
    var x := FormatSource(|Successful(a)| + 1, t);
    SectionsSnoc(a, t);
    assert Successful(a + [t]) != [] by {
      assert (a + [t])[|a|] == t;
    }
    var p := TopicContext(topic) + StudyPrompt;
    JoinSnoc(Sections(a + [t]), Sections(a), x, SectionSeparator);
    PromptSnoc(SummaryPrompt(a + [t], topic), SummaryPrompt(a, topic), p,
               Join(Sections(a), SectionSeparator), Join(Sections(a + [t]), SectionSeparator), SectionSeparator, x);
  }

  lemma JoinSnoc(longer: seq<string>, parts: seq<string>, x: string, sep: string)
    requires |parts| >= 1 && longer == parts + [x]
    ensures Join(longer, sep) == Join(parts, sep) + sep + x
  {
    JoinAppend(parts, x, sep);
  }

  lemma PromptSnoc(after: Try<string>, before: Try<string>, p: string, j0: string, j1: string, sep: string, x: string)
    requires before == Ok(p + j0) && after == Ok(p + j1) && j1 == j0 + sep + x
    ensures after == Ok(before.value + sep + x)
  {
    assert p + (j0 + sep + x) == p + j0 + sep + x;
  }

  /** The sections of one more success: the earlier ones, then its own. */
  lemma {:induction false} SectionsSnoc(a: seq<TranscriptResult>, t: TranscriptResult)
    requires t.success
    ensures Sections(a + [t]) == Sections(a) + [FormatSource(|Successful(a)| + 1, t)]
  {
    SuccessfulSnoc(a, t);
    NumberedSnoc(Sections(a + [t]), Sections(a), Successful(a), t);
  }

  /** A success at the end is kept at the end. */
  lemma {:induction false} SuccessfulSnoc(a: seq<TranscriptResult>, t: TranscriptResult)
    requires t.success
    ensures Successful(a + [t]) == Successful(a) + [t]
  {
    SuccessfulAppend(a, [t]);
    assert Successful([t]) == [t] by {
      assert [t][1..] == [];
    }
  }

  /** Numbered sections of `s` followed by `t` are those of `s`, then `t`'s. */
  lemma {:induction false} NumberedSnoc(l: seq<string>, r: seq<string>, s: seq<TranscriptResult>, t: TranscriptResult)
    requires |l| == |s| + 1 && forall k :: 0 <= k < |l| ==> l[k] == FormatSource(k + 1, (s + [t])[k])
    requires |r| == |s| && forall k :: 0 <= k < |r| ==> r[k] == FormatSource(k + 1, s[k])
    ensures l == r + [FormatSource(|s| + 1, t)]
  {
    var x := FormatSource(|s| + 1, t);
    forall k | 0 <= k < |l|
      ensures l[k] == (r + [x])[k]
    {
      if k < |s| {
        assert (s + [t])[k] == s[k];
      } else {
        assert (s + [t])[k] == t;
      }
    }
  }

  // ---------------------------------------------------------------------------
  // Properties of the topic title

  lemma {:induction false} JoinEndsWithLast(ws: seq<string>, sep: string)
    requires |ws| >= 1
    ensures EndsWith(Join(ws, sep), ws[|ws| - 1])
  {
    if |ws| > 1 {
      JoinEndsWithLast(ws[1..], sep);
      assert Join(ws, sep) == (ws[0] + sep) + Join(ws[1..], sep);
      assert ws[1..][|ws[1..]| - 1] == ws[|ws| - 1];
    }
  }

  lemma {:induction false} DefaultTopicWords()
    ensures SplitOnSpaceRuns(DefaultTopic) == ["Study", "Session"]
  {
    var ws := ["Study", "Session"];
    assert ws[1..] == ["Session"];
    assert Join(ws, " ") == DefaultTopic;
    assert IsWord(ws[0]) && IsWord(ws[1]);
    SplitJoinWords(ws);
  }

  /** Words joined by single spaces have no white space at either end. */
  lemma {:induction false} JoinedWordsTrimmed(ws: seq<string>)
    requires |ws| >= 1 && forall i :: 0 <= i < |ws| ==> IsWord(ws[i])
    ensures Join(ws, " ") != [] && Trimmed(Join(ws, " "))
  {
    JoinStartsWithFirst(ws, " ");
    JoinEndsWithLast(ws, " ");
    var r := Join(ws, " ");
    var first := ws[0];
    var last := ws[|ws| - 1];
    assert IsWord(first) && IsWord(last);
    assert r[0] == r[..|first|][0] == first[0];
    assert r[|r| - 1] == r[|r| - |last|..][|last| - 1] == last[|last| - 1];
  }

  lemma {:induction false} LongTitleShape(text: string)
    requires |SplitOnSpaceRuns(Trim(text))| > MaxTitleWords
    ensures TitleOf(text) != [] && Trimmed(TitleOf(text))
    ensures |SplitOnSpaceRuns(TitleOf(text))| <= MaxTitleWords
  {
    var title := Trim(text);
    var words := SplitOnSpaceRuns(title);
    LongTitleCut(text);
    SplitTrimmedGivesWords(title);
    JoinedWordsTrimmed(words[..MaxTitleWords]);
  }

  lemma {:induction false} DefaultTopicShape()
    ensures DefaultTopic != [] && Trimmed(DefaultTopic)
    ensures |SplitOnSpaceRuns(DefaultTopic)| <= MaxTitleWords
  {
    DefaultTopicWords();
  }

  /** A title is never empty, has no surrounding white space, and has at most five words. */
  lemma {:induction false} TitleShape(text: string)
    ensures TitleOf(text) != []
    ensures Trimmed(TitleOf(text))
    ensures |SplitOnSpaceRuns(TitleOf(text))| <= MaxTitleWords
  {
    var title := Trim(text);
    if |SplitOnSpaceRuns(title)| > MaxTitleWords {
      LongTitleShape(text);
    } else if title == "" {
      DefaultTopicShape();
      assert TitleOf(text) == DefaultTopic;
    } else {
      assert TitleOf(text) == title;
    }
  }

  /** A title of more than five words is cut to its first five, joined by
      single spaces; splitting the result gives back exactly those five words. */
  lemma {:induction false} LongTitleCut(text: string)
    requires |SplitOnSpaceRuns(Trim(text))| > MaxTitleWords
    ensures TitleOf(text) == Join(SplitOnSpaceRuns(Trim(text))[..MaxTitleWords], " ")
    ensures SplitOnSpaceRuns(TitleOf(text)) == SplitOnSpaceRuns(Trim(text))[..MaxTitleWords]
  {
    var title := Trim(text);
    var words := SplitOnSpaceRuns(title);
    assert title != [];
    SplitTrimmedGivesWords(title);
    SplitJoinWords(words[..MaxTitleWords]);
  }

  /** A reply of at most five words is the title as it stands, once trimmed. */
  lemma {:induction false} ShortTitleKept(text: string)
    requires Trim(text) != [] && |SplitOnSpaceRuns(Trim(text))| <= MaxTitleWords
    ensures TitleOf(text) == Trim(text)
  {
  }

  /** The topic name is never empty and never more than five words, whatever the reply. */
  lemma {:induction false} TopicNameShape(ts: seq<TranscriptResult>, reply: Reply)
    ensures GenerateTopicName(ts, reply) != []
    ensures |SplitOnSpaceRuns(GenerateTopicName(ts, reply))| <= MaxTitleWords
  {
    if Successful(ts) != [] && reply.TextBlock? {
      TitleShape(reply.text);
    } else {
      DefaultTopicWords();
    }
  }
}
