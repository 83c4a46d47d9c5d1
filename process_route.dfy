/** The processing pipeline (src/app/api/process/route.ts): the checks of a
    `POST` request, the creation of the run, and the run itself
    (`processUrlsAsync`), which fetches one transcript per URL, then names,
    summarises and publishes them, recording every step in the session store.

    Everything the route awaits (the sign-in check, the request body, the page
    client, the tweet lookup, the downloader, the transcriber, the language
    model) is replaced by its outcome, given in advance. */
module ProcessRoute {
  import opened Wrappers
  import opened Text
  import opened Types
  import opened UrlDetector
  import opened SessionStore
  import opened Claude
  import opened Notion

  // ---------------------------------------------------------------------------
  // Checking a request

  const MaxUrls: nat := 5
  const PlaceholderTopic: string := "Processing..."
  const UnauthorizedMessage: string := "Unauthorized"
  const NoUrlsMessage: string := "No URLs provided"
  const TooManyUrlsMessage: string := "Maximum 5 URLs allowed"
  const NoValidUrlsMessage: string :=
    "No valid URLs detected. Supported platforms: YouTube, X/Twitter, TikTok, Instagram"
  const StartFailedMessage: string := "Failed to start processing"

  /** The body of a request: `urls` may be missing; `topicName` is optional. */
  datatype ProcessRequest = ProcessRequest(urls: Option<seq<string>>, topicName: Option<string>)

  /** The verdict of the checks: refused with an HTTP status and a message,
      or admitted with the URLs to process and the title the run starts with. */
  datatype Checked = Refused(status: nat, error: string) | Admitted(valid: seq<UrlInfo>, topic: string)

  /** The entries of a classification whose platform is known, in order. */
  function KnownUrls(infos: seq<UrlInfo>): (r: seq<UrlInfo>)
    ensures |r| <= |infos|
    ensures forall i :: 0 <= i < |r| ==> r[i].platform != Unknown
    ensures forall u :: u in r <==> u in infos && u.platform != Unknown
  {
    if infos == [] then []
    else
      var rest := KnownUrls(infos[1..]);
      assert forall i :: 1 <= i < |infos| ==> infos[i] == infos[1..][i - 1];
      if infos[0].platform != Unknown then [infos[0]] + rest else rest
  }

  /** `topicName || "Processing..."`. */
  function SessionTopic(topicName: Option<string>): string {
    if topicName.Some? && topicName.value != "" then topicName.value else PlaceholderTopic
  }

  /** The checks `POST` makes before it creates anything. `body` is `None`
      when reading the request body threw. */
  function Check(signedIn: bool, body: Option<ProcessRequest>): (r: Checked)
    ensures !signedIn ==> r == Refused(401, UnauthorizedMessage)
    ensures signedIn && body.None? ==> r == Refused(500, StartFailedMessage)
    ensures signedIn && body.Some? && (body.value.urls.None? || body.value.urls.value == []) ==>
              r == Refused(400, NoUrlsMessage)
    ensures signedIn && body.Some? && body.value.urls.Some? && |body.value.urls.value| > MaxUrls ==>
              r == Refused(400, TooManyUrlsMessage)
    ensures r.Admitted? <==>
              signedIn && body.Some? && body.value.urls.Some? && 1 <= |body.value.urls.value| <= MaxUrls &&
              KnownUrls(ParseUrls(Join(body.value.urls.value, "\n"))) != []
    ensures r.Admitted? ==> r.valid == KnownUrls(ParseUrls(Join(body.value.urls.value, "\n")))
    ensures r.Admitted? ==> r.topic == SessionTopic(body.value.topicName)
    ensures r.Refused? && r.status == 400 && r.error == NoValidUrlsMessage ==>
              1 <= |body.value.urls.value| <= MaxUrls
  {
    if !signedIn then Refused(401, UnauthorizedMessage)
    else if body.None? then Refused(500, StartFailedMessage)
    else
      var req := body.value;
      if req.urls.None? || req.urls.value == [] then Refused(400, NoUrlsMessage)
      else if |req.urls.value| > MaxUrls then Refused(400, TooManyUrlsMessage)
      else
        var valid := KnownUrls(ParseUrls(Join(req.urls.value, "\n")));
        if valid == [] then Refused(400, NoValidUrlsMessage)
        else Admitted(valid, SessionTopic(req.topicName))
  }

  /** Every admitted URL is a non-empty trimmed line of the request, of a
      known platform, with an id. */
  lemma {:induction false} AdmittedUrlsAreKnown(signedIn: bool, body: Option<ProcessRequest>)
    requires Check(signedIn, body).Admitted?
    ensures forall u :: u in Check(signedIn, body).valid ==>
              u.platform != Unknown && u.id.Some? && u.url != [] && Trimmed(u.url)
  {
    var input := Join(body.value.urls.value, "\n");
    ParseUrlsEntries(input);
    forall u | u in Check(signedIn, body).valid
      ensures u.platform != Unknown && u.id.Some? && u.url != [] && Trimmed(u.url)
    {
      assert u in ParseUrls(input);
      var i :| 0 <= i < |ParseUrls(input)| && ParseUrls(input)[i] == u;
    }
  }

  /** The known entries of a classification where every entry is known are all of it. */
  lemma {:induction false} KnownUrlsOfKnown(infos: seq<UrlInfo>)
    requires forall i :: 0 <= i < |infos| ==> infos[i].platform != Unknown
    ensures KnownUrls(infos) == infos
  {
    if infos != [] {
      KnownUrlsOfKnown(infos[1..]);
    }
  }

  /** A signed-in request of one to five clean URLs (each a non-empty trimmed
      line of a known platform) is admitted with exactly those URLs, in order. */
  lemma {:induction false} CleanRequestAdmitted(urls: seq<string>, topicName: Option<string>)
    requires 1 <= |urls| <= MaxUrls
    requires forall i :: 0 <= i < |urls| ==> urls[i] != [] && Trimmed(urls[i]) && '\n' !in urls[i]
    requires forall i :: 0 <= i < |urls| ==> DetectPlatform(urls[i]) != Unknown
    ensures Check(true, Some(ProcessRequest(Some(urls), topicName))).Admitted?
    ensures UrlsOf(Check(true, Some(ProcessRequest(Some(urls), topicName))).valid) == urls
  {
    CleanUrlsKept(urls);
    var v := KnownUrls(ParseUrls(Join(urls, "\n")));
    assert |v| == |UrlsOf(v)| == |urls|;
  }

  /** Clean lines of known platforms, joined and parsed, are kept whole and in order. */
  lemma {:induction false} CleanUrlsKept(urls: seq<string>)
    requires urls != []
    requires forall i :: 0 <= i < |urls| ==> urls[i] != [] && Trimmed(urls[i]) && '\n' !in urls[i]
    requires forall i :: 0 <= i < |urls| ==> DetectPlatform(urls[i]) != Unknown
    ensures UrlsOf(KnownUrls(ParseUrls(Join(urls, "\n")))) == urls
  {
    SplitJoin(urls, '\n');
    NonBlankTrimmedKeepsCleanLines(urls);
    var parsed := ParseUrls(Join(urls, "\n"));
    forall i | 0 <= i < |parsed|
      ensures parsed[i] == Classify(urls[i]) && parsed[i].platform != Unknown
    {
      assert parsed[i] == Classify(urls[i]);
      assert Classify(urls[i]).platform == DetectPlatform(urls[i]);
    }
    KnownUrlsOfKnown(parsed);
  }

  // ---------------------------------------------------------------------------
  // Starting a run

  /** What `POST` answers. */
  datatype Response = Started(sessionId: string, notionPageId: string, notionPageUrl: string)
                    | Rejected(status: nat, error: string)

  /** What `POST` hands to `processUrlsAsync`. */
  datatype Run = Run(sessionId: string, infos: seq<UrlInfo>, pageId: string, providedTopic: Option<string>)

  /** `POST`, given the sign-in check, the parsed body, the outcome of the page
      creation (the new page's id), the fresh session id and the time. An
      admitted request creates the page, then the pending session; a refused
      request or a failed page creation changes nothing. `sent` is the page
      properties sent to the page client, if it was called. */
  method Post(store: Store, signedIn: bool, body: Option<ProcessRequest>, created: Try<string>,
              sessionId: string, now: int) returns (resp: Response, run: Option<Run>, sent: Option<NewPageProperties>)
    modifies store
    ensures Check(signedIn, body).Refused? ==>
              resp == Rejected(Check(signedIn, body).status, Check(signedIn, body).error) &&
              run.None? && sent.None? && store.sessions == old(store.sessions)
    ensures Check(signedIn, body).Admitted? ==>
              sent == Some(CreatePageProperties(Check(signedIn, body).topic, UrlsOf(Check(signedIn, body).valid)))
    ensures Check(signedIn, body).Admitted? && created.Threw? ==>
              resp == Rejected(500, StartFailedMessage) && run.None? && store.sessions == old(store.sessions)
    ensures Check(signedIn, body).Admitted? && created.Ok? ==>
              resp == Started(sessionId, created.value, PageUrl(created.value)) &&
              run == Some(Run(sessionId, Check(signedIn, body).valid, created.value, body.value.topicName)) &&
              store.sessions == old(store.sessions)[sessionId := NewSession(sessionId, Check(signedIn, body).topic,
                                   UrlsOf(Check(signedIn, body).valid), created.value, PageUrl(created.value), now)]
  {
    var checked := Check(signedIn, body);
    match checked
    case Refused(status, error) =>
      resp, run, sent := Rejected(status, error), None, None;
    case Admitted(valid, topic) =>
      sent := Some(CreatePageProperties(topic, UrlsOf(valid)));
      match CreateStudyPage(created)
      case Threw(_) =>
        resp, run := Rejected(500, StartFailedMessage), None;
      case Ok(page) =>
        var _ := store.CreateSession(sessionId, topic, UrlsOf(valid), page.0, page.1, now);
        resp := Started(sessionId, page.0, page.1);
        run := Some(Run(sessionId, valid, page.0, body.value.topicName));
  }

  // ---------------------------------------------------------------------------
  // Fetching one transcript

  /** The outcomes of the calls for one URL: the tweet-text lookup (`None`
      for `null`; it never throws), the download, the transcription. */
  datatype Acquisition = Acquisition(tweetText: Option<string>, download: Try<()>, transcription: Try<string>)

  /** The transcript for one URL, and whether the downloaded file was cleaned up. */
  datatype Acquired = Acquired(result: TranscriptResult, cleanedUp: bool)

  /** The text of a text-only tweet, or empty when there is none to use. */
  function TweetText(info: UrlInfo, a: Acquisition): string {
    if info.platform == Twitter && a.tweetText.Some? then a.tweetText.value else ""
  }

  function Success(info: UrlInfo, transcript: string): TranscriptResult {
    TranscriptResult(info.url, info.platform, transcript, None, true)
  }

  function Failure(info: UrlInfo, e: Thrown): TranscriptResult {
    TranscriptResult(info.url, info.platform, "", Some(MessageOf(e)), false)
  }

  /** One iteration of the loop of `processUrlsAsync`. A text tweet is used as
      it is; otherwise the audio is downloaded and transcribed, and the file is
      cleaned up exactly when the download returned, whether or not the
      transcription threw. A failure is recorded, not thrown. */
  function Acquire(info: UrlInfo, a: Acquisition): (r: Acquired)
    ensures r.result.url == info.url && r.result.platform == info.platform
    ensures r.result.success <==> TweetText(info, a) != "" || (a.download.Ok? && a.transcription.Ok?)
    ensures r.result.success ==> r.result.error.None?
    ensures !r.result.success ==> r.result.transcript == "" && r.result.error.Some?
    ensures TweetText(info, a) != "" ==> r.result.transcript == TweetText(info, a) && !r.cleanedUp
    ensures r.cleanedUp <==> TweetText(info, a) == "" && a.download.Ok?
    ensures TweetText(info, a) == "" && a.download.Threw? ==> r.result == Failure(info, a.download.thrown)
    ensures TweetText(info, a) == "" && a.download.Ok? && a.transcription.Threw? ==>
              r.result == Failure(info, a.transcription.thrown)
    ensures TweetText(info, a) == "" && a.download.Ok? && a.transcription.Ok? ==>
              r.result == Success(info, a.transcription.value)
  {
    var tweet := TweetText(info, a);
    if tweet != "" then Acquired(Success(info, tweet), false)
    else
      match a.download
      case Threw(e) => Acquired(Failure(info, e), false)
      case Ok(_) =>
        match a.transcription
        case Ok(t) => Acquired(Success(info, t), true)
        case Threw(e) => Acquired(Failure(info, e), true)
  }

  /** The transcripts of a run: one per URL, in order. */
  function Transcripts(infos: seq<UrlInfo>, acqs: seq<Acquisition>): (r: seq<TranscriptResult>)
    requires |acqs| == |infos|
    ensures |r| == |infos|
    ensures forall i :: 0 <= i < |infos| ==> r[i] == Acquire(infos[i], acqs[i]).result
    ensures forall i :: 0 <= i < |infos| ==> r[i].url == infos[i].url && r[i].platform == infos[i].platform
  {
    seq(|infos|, i requires 0 <= i < |infos| => Acquire(infos[i], acqs[i]).result)
  }

  /** For each URL, whether its downloaded file was cleaned up. */
  function Cleanups(infos: seq<UrlInfo>, acqs: seq<Acquisition>): (r: seq<bool>)
    requires |acqs| == |infos|
    ensures |r| == |infos|
    ensures forall i :: 0 <= i < |infos| ==> r[i] == Acquire(infos[i], acqs[i]).cleanedUp
  {
    seq(|infos|, i requires 0 <= i < |infos| => Acquire(infos[i], acqs[i]).cleanedUp)
  }

  // ---------------------------------------------------------------------------
  // The updates a run makes

  const StartStage: string := "Starting transcription"
  const SummaryStage: string := "Generating summary with Claude"
  const CompleteStage: string := "Complete"
  const AllFailedMessage: string := "All URLs failed to process"

  /** The stage shown while URL `i` (from 0) of `n` is transcribed. */
  function TranscribingStage(p: Platform, i: nat, n: nat): string {
    "Transcribing " + PlatformTag(p) + " (" + NatToString(i + 1) + "/" + NatToString(n) + ")"
  }

  function StartPatch(n: nat): SessionPatch {
    NoChange.(status := Some(Processing), progress := Some(Progress(0, n, StartStage)))
  }

  function ProgressPatch(i: nat, n: nat, p: Platform): SessionPatch {
    NoChange.(progress := Some(Progress(i, n, TranscribingStage(p, i, n))))
  }

  /** One progress update per URL, numbered from 0, out of `n`. */
  function LoopPatches(infos: seq<UrlInfo>, n: nat): (r: seq<SessionPatch>)
    ensures |r| == |infos|
    ensures forall i :: 0 <= i < |infos| ==> r[i] == ProgressPatch(i, n, infos[i].platform)
  {
    seq(|infos|, i requires 0 <= i < |infos| => ProgressPatch(i, n, infos[i].platform))
  }

  function SummaryStagePatch(n: nat): SessionPatch {
    NoChange.(progress := Some(Progress(n, n, SummaryStage)))
  }

  function FailurePatch(message: string, ts: seq<TranscriptResult>): SessionPatch {
    NoChange.(status := Some(Failed), error := Some(message), transcripts := Some(ts))
  }

  function CompletePatch(topic: string, ts: seq<TranscriptResult>, summary: SummaryResult, n: nat): SessionPatch {
    NoChange.(status := Some(Complete), topicName := Some(topic), transcripts := Some(ts),
              summary := Some(summary), progress := Some(Progress(n, n, CompleteStage)))
  }

  /** The outcomes of the calls of a run: one acquisition per URL; the status
      update of the page after every URL failed; the two model calls (topic,
      summary); the two page-client calls of the publication; and the time
      stamp printed on the page. */
  datatype Outcomes = Outcomes(
    acquisitions: seq<Acquisition>,
    failedStatus: Try<()>,
    topicReply: Reply,
    summaryReply: Reply,
    pageUpdate: Try<()>,
    pageAppend: Try<()>,
    processedOn: string)

  /** `providedTopicName || await generateTopicName(transcripts)`: the model is
      asked only when no non-empty name was given. */
  function FinalTopic(provided: Option<string>, ts: seq<TranscriptResult>, reply: Reply): string {
    if provided.Some? && provided.value != "" then provided.value else GenerateTopicName(ts, reply)
  }

  /** The summary of a run: the model is asked with the final topic. */
  function SummaryOf(ts: seq<TranscriptResult>, provided: Option<string>, o: Outcomes): Try<SummaryResult> {
    GenerateStudySummary(ts, Some(FinalTopic(provided, ts, o.topicReply)), o.summaryReply)
  }

  /** The last update of a run with at least one success: the outer catch's
      failure when the summary or the publication threw, completion otherwise. */
  function Conclusion(code: PageCode, ts: seq<TranscriptResult>, n: nat, provided: Option<string>, o: Outcomes): SessionPatch {
    match SummaryOf(ts, provided, o)
    case Threw(e) => FailurePatch(MessageOf(e), ts)
    case Ok(summary) =>
      match UpdateStudyPage(code, o.pageUpdate, o.pageAppend, ts, summary, o.processedOn)
      case Threw(e) => FailurePatch(MessageOf(e), ts)
      case Ok(_) => CompletePatch(FinalTopic(provided, ts, o.topicReply), ts, summary, n)
  }

  /** The updates made after the loop. With no success: the failure, and a
      second failure when the page status update throws into the outer catch.
      Otherwise: the summary stage, then the conclusion. */
  function Finish(code: PageCode, ts: seq<TranscriptResult>, n: nat, provided: Option<string>, o: Outcomes): (r: seq<SessionPatch>)
    ensures 1 <= |r| <= 3
  {
    if Successful(ts) == [] then
      [FailurePatch(AllFailedMessage, ts)] +
      (if o.failedStatus.Threw? then [FailurePatch(MessageOf(o.failedStatus.thrown), ts)] else [])
    else
      [SummaryStagePatch(n), Conclusion(code, ts, n, provided, o)]
  }

  /** Every update a run of `processUrlsAsync` makes to its session, in order. */
  function RunPatches(code: PageCode, infos: seq<UrlInfo>, provided: Option<string>, o: Outcomes): seq<SessionPatch>
    requires |o.acquisitions| == |infos|
  {
    [StartPatch(|infos|)] + LoopPatches(infos, |infos|) +
    Finish(code, Transcripts(infos, o.acquisitions), |infos|, provided, o)
  }

  /** The body of one iteration of the loop, after its progress update: the
      tweet text first, then download and transcription, with the cleanup of
      the `finally` block. */
  method AcquireOne(info: UrlInfo, a: Acquisition) returns (result: TranscriptResult, cleaned: bool)
    ensures Acquired(result, cleaned) == Acquire(info, a)
  {
    var transcript := "";
    if info.platform == Twitter && a.tweetText.Some? && a.tweetText.value != "" {
      transcript := a.tweetText.value;
    }
    cleaned := false;
    if transcript != "" {
      result := Success(info, transcript);
    } else {
      match a.download {
        case Threw(e) =>
          result := Failure(info, e);
        case Ok(_) =>
          // try { transcribe } finally { cleanup }
          match a.transcription {
            case Ok(t) =>
              result := Success(info, t);
            case Threw(e) =>
              result := Failure(info, e);
          }
          cleaned := true;
      }
    }
  }

  /** The part of `processUrlsAsync` after the loop, given its transcripts,
      with the page code `code` (`AsWritten` is src/lib/notion.ts as it stands). */
  method Conclude(store: Store, id: string, code: PageCode, ts: seq<TranscriptResult>, n: nat,
                  provided: Option<string>, o: Outcomes, now: int)
    modifies store
    ensures store.sessions == ApplyAll(old(store.sessions), id, Finish(code, ts, n, provided, o), now)
  {
    ghost var m0 := store.sessions;
    ghost var fin := Finish(code, ts, n, provided, o);
    if Successful(ts) == [] {
      var f := FailurePatch(AllFailedMessage, ts);
      var _ := store.UpdateSession(id, f, now);
      ApplyAllSnoc(m0, id, [], f, now);
      assert [] + [f] == [f];
      assert store.sessions == ApplyAll(m0, id, [f], now);
      match o.failedStatus {
        case Threw(e) =>
          var g := FailurePatch(MessageOf(e), ts);
          var _ := store.UpdateSession(id, g, now);
          ApplyAllSnoc(m0, id, [f], g, now);
          assert fin == [f] + [g];
        case Ok(_) =>
          assert fin == [f];
      }
    } else {
      var s := SummaryStagePatch(n);
      var _ := store.UpdateSession(id, s, now);
      ApplyAllSnoc(m0, id, [], s, now);
      assert [] + [s] == [s];
      assert store.sessions == ApplyAll(m0, id, [s], now);
      var last := Conclusion(code, ts, n, provided, o);
      var _ := store.UpdateSession(id, last, now);
      ApplyAllSnoc(m0, id, [s], last, now);
      assert fin == [s] + [last];
    }
  }

  lemma {:induction false} LoopPatchesSnoc(infos: seq<UrlInfo>, i: nat, n: nat)
    requires i < |infos|
    ensures LoopPatches(infos[..i + 1], n) == LoopPatches(infos[..i], n) + [ProgressPatch(i, n, infos[i].platform)]
  {
    var a := LoopPatches(infos[..i + 1], n);
    var b := LoopPatches(infos[..i], n) + [ProgressPatch(i, n, infos[i].platform)];
    assert |a| == |b|;
    forall k | 0 <= k < |a|
      ensures a[k] == b[k]
    {
      assert infos[..i + 1][k] == infos[k];
      if k < i {
        assert infos[..i][k] == infos[k];
      }
    }
  }

  lemma {:induction false} AcquiredSnoc(infos: seq<UrlInfo>, acqs: seq<Acquisition>, i: nat)
    requires |acqs| == |infos| && i < |infos|
    ensures Transcripts(infos[..i + 1], acqs[..i + 1]) ==
              Transcripts(infos[..i], acqs[..i]) + [Acquire(infos[i], acqs[i]).result]
    ensures Cleanups(infos[..i + 1], acqs[..i + 1]) ==
              Cleanups(infos[..i], acqs[..i]) + [Acquire(infos[i], acqs[i]).cleanedUp]
  {
    var a := Transcripts(infos[..i + 1], acqs[..i + 1]);
    var b := Transcripts(infos[..i], acqs[..i]) + [Acquire(infos[i], acqs[i]).result];
    forall k | 0 <= k < |a|
      ensures a[k] == b[k]
    {
      assert infos[..i + 1][k] == infos[k] && acqs[..i + 1][k] == acqs[k];
      if k < i {
        assert infos[..i][k] == infos[k] && acqs[..i][k] == acqs[k];
      }
    }
    var c := Cleanups(infos[..i + 1], acqs[..i + 1]);
    var d := Cleanups(infos[..i], acqs[..i]) + [Acquire(infos[i], acqs[i]).cleanedUp];
    forall k | 0 <= k < |c|
      ensures c[k] == d[k]
    {
      assert infos[..i + 1][k] == infos[k] && acqs[..i + 1][k] == acqs[k];
      if k < i {
        assert infos[..i][k] == infos[k] && acqs[..i][k] == acqs[k];
      }
    }
  }

  /** The loop of `processUrlsAsync`: for each URL in turn, a progress update
      and then its transcript. */
  method TranscribeAll(store: Store, id: string, infos: seq<UrlInfo>, acqs: seq<Acquisition>, now: int)
    returns (transcripts: seq<TranscriptResult>, cleanups: seq<bool>)
    requires |acqs| == |infos|
    modifies store
    ensures transcripts == Transcripts(infos, acqs)
    ensures cleanups == Cleanups(infos, acqs)
    ensures store.sessions == ApplyAll(old(store.sessions), id, LoopPatches(infos, |infos|), now)
  {
    var n := |infos|;
    ghost var m0 := store.sessions;
    transcripts, cleanups := [], [];
    var i := 0;
    while i < n
      invariant 0 <= i <= n
      invariant transcripts == Transcripts(infos[..i], acqs[..i])
      invariant cleanups == Cleanups(infos[..i], acqs[..i])
      invariant store.sessions == ApplyAll(m0, id, LoopPatches(infos[..i], n), now)
    {
      var p := ProgressPatch(i, n, infos[i].platform);
      var _ := store.UpdateSession(id, p, now);
      ApplyAllSnoc(m0, id, LoopPatches(infos[..i], n), p, now);
      LoopPatchesSnoc(infos, i, n);

      var result, cleaned := AcquireOne(infos[i], acqs[i]);
      AcquiredSnoc(infos, acqs, i);
      transcripts := transcripts + [result];
      cleanups := cleanups + [cleaned];
      i := i + 1;
    }
    assert infos[..n] == infos && acqs[..n] == acqs;
  }

  /** `processUrlsAsync` for `run`, calling the page code `code`: `AsWritten`
      is the program as it stands, `Corrected` the repaired src/lib/notion.ts.
      It returns the transcripts it collected and, per URL, whether a
      downloaded file was cleaned up. The store ends as the updates of
      `RunPatches` leave it; as written, the session always ends `failed`. */
  method ProcessUrlsAsync(store: Store, code: PageCode, run: Run, o: Outcomes, now: int)
    returns (transcripts: seq<TranscriptResult>, cleanups: seq<bool>)
    requires |o.acquisitions| == |run.infos|
    modifies store
    ensures transcripts == Transcripts(run.infos, o.acquisitions)
    ensures cleanups == Cleanups(run.infos, o.acquisitions)
    ensures store.sessions == ApplyAll(old(store.sessions), run.sessionId,
                                       RunPatches(code, run.infos, run.providedTopic, o), now)
    ensures code == AsWritten && run.sessionId in old(store.sessions) ==>
              store.sessions[run.sessionId].status == Failed
  {
    var id := run.sessionId;
    var n := |run.infos|;
    ghost var m0 := store.sessions;
    var start := StartPatch(n);
    var _ := store.UpdateSession(id, start, now);
    ApplyAllSnoc(m0, id, [], start, now);
    assert [] + [start] == [start];
    ghost var m1 := store.sessions;
    transcripts, cleanups := TranscribeAll(store, id, run.infos, o.acquisitions, now);
    ghost var loop := LoopPatches(run.infos, n);
    ApplyAllAppend(m0, id, [start], loop, now);
    ghost var m2 := store.sessions;
    Conclude(store, id, code, transcripts, n, run.providedTopic, o, now);
    ghost var fin := Finish(code, transcripts, n, run.providedTopic, o);
    ApplyAllAppend(m0, id, [start] + loop, fin, now);
    assert RunPatches(code, run.infos, run.providedTopic, o) == [start] + loop + fin;
    if code == AsWritten && id in m0 {
      AsWrittenRunNeverCompletes(run.infos, run.providedTopic, o, m0, id, now);
    }
  }

  // ---------------------------------------------------------------------------
  // Properties of a run

  /** The statuses a run of updates sets, in order. */
  function Statuses(ps: seq<SessionPatch>): seq<Status> {
    if ps == [] then [] else (if ps[0].status.Some? then [ps[0].status.value] else []) + Statuses(ps[1..])
  }

  lemma {:induction false} StatusesAppend(a: seq<SessionPatch>, b: seq<SessionPatch>)
    ensures Statuses(a + b) == Statuses(a) + Statuses(b)
  {
    if a == [] {
      assert a + b == b;
    } else {
      assert (a + b)[1..] == a[1..] + b;
      StatusesAppend(a[1..], b);
    }
  }

  lemma {:induction false} NoStatuses(ps: seq<SessionPatch>)
    requires forall k :: 0 <= k < |ps| ==> ps[k].status.None?
    ensures Statuses(ps) == []
  {
    if ps != [] {
      NoStatuses(ps[1..]);
    }
  }

  /** The status only moves forward: `processing` first, then `complete` or
      `failed` (the failure is recorded twice when the page status update of
      an all-failed run throws). */
  lemma {:induction false} StatusOrder(code: PageCode, infos: seq<UrlInfo>, provided: Option<string>, o: Outcomes)
    requires |o.acquisitions| == |infos|
    ensures var st := Statuses(RunPatches(code, infos, provided, o));
            st == [Processing, Complete] || st == [Processing, Failed] || st == [Processing, Failed, Failed]
  {
    RunStatuses(code, infos, provided, o);
    FinishStatuses(code, Transcripts(infos, o.acquisitions), |infos|, provided, o);
    ProcessingFirst(Statuses(Finish(code, Transcripts(infos, o.acquisitions), |infos|, provided, o)));
  }

  /** The statuses of a run: `processing`, then those of the updates after the loop. */
  lemma {:induction false} RunStatuses(code: PageCode, infos: seq<UrlInfo>, provided: Option<string>, o: Outcomes)
    requires |o.acquisitions| == |infos|
    ensures Statuses(RunPatches(code, infos, provided, o)) ==
            [Processing] + Statuses(Finish(code, Transcripts(infos, o.acquisitions), |infos|, provided, o))
  {
    var n := |infos|;
    StatusesAfterStart(n, LoopPatches(infos, n), Finish(code, Transcripts(infos, o.acquisitions), n, provided, o));
  }

  lemma ProcessingFirst(sf: seq<Status>)
    requires sf == [Complete] || sf == [Failed] || sf == [Failed, Failed]
    ensures var st := [Processing] + sf;
            st == [Processing, Complete] || st == [Processing, Failed] || st == [Processing, Failed, Failed]
  {
  }

  lemma {:induction false} StatusesAfterStart(n: nat, loop: seq<SessionPatch>, fin: seq<SessionPatch>)
    requires forall k :: 0 <= k < |loop| ==> loop[k].status.None?
    ensures Statuses([StartPatch(n)] + loop + fin) == [Processing] + Statuses(fin)
  {
    NoStatuses(loop);
    StatusesOne(StartPatch(n));
    StatusesAppend([StartPatch(n)], loop);
    StatusesAppend([StartPatch(n)] + loop, fin);
  }

  lemma {:induction false} FinishStatuses(code: PageCode, ts: seq<TranscriptResult>, n: nat, provided: Option<string>, o: Outcomes)
    ensures var st := Statuses(Finish(code, ts, n, provided, o));
            st == [Complete] || st == [Failed] || st == [Failed, Failed]
  {
    var fin := Finish(code, ts, n, provided, o);
    if Successful(ts) == [] {
      var f := FailurePatch(AllFailedMessage, ts);
      StatusesOne(f);
      if o.failedStatus.Threw? {
        var g := FailurePatch(MessageOf(o.failedStatus.thrown), ts);
        assert fin == [f] + [g];
        StatusesAppend([f], [g]);
        StatusesOne(g);
      } else {
        assert fin == [f];
      }
    } else {
      var c := Conclusion(code, ts, n, provided, o);
      assert fin == [SummaryStagePatch(n)] + [c];
      StatusesAppend([SummaryStagePatch(n)], [c]);
      StatusesOne(SummaryStagePatch(n));
      StatusesOne(c);
      ConclusionStatus(code, ts, n, provided, o);
    }
  }

  lemma {:induction false} StatusesOne(p: SessionPatch)
    ensures Statuses([p]) == if p.status.Some? then [p.status.value] else []
  {
    assert [p][1..] == [];
  }

  /** A conclusion completes or fails. */
  lemma {:induction false} ConclusionStatus(code: PageCode, ts: seq<TranscriptResult>, n: nat, provided: Option<string>, o: Outcomes)
    ensures Conclusion(code, ts, n, provided, o).status == Some(Complete) ||
            Conclusion(code, ts, n, provided, o).status == Some(Failed)
  {
  }

  /** Every progress report counts against the number of URLs, never past it,
      and reaches it only at the summary stage or on completion. */
  predicate ProgressOk(ps: seq<SessionPatch>, n: nat) {
    forall k :: 0 <= k < |ps| && ps[k].progress.Some? ==>
      ps[k].progress.value.total == n && ps[k].progress.value.current <= n &&
      (ps[k].progress.value.current == n && n > 0 ==>
         ps[k].progress.value.stage == SummaryStage || ps[k].progress.value.stage == CompleteStage)
  }

  lemma {:induction false} ProgressOkAppend(a: seq<SessionPatch>, b: seq<SessionPatch>, n: nat)
    requires ProgressOk(a, n) && ProgressOk(b, n)
    ensures ProgressOk(a + b, n)
  {
    forall k | 0 <= k < |a + b|
      ensures (a + b)[k] == if k < |a| then a[k] else b[k - |a|]
    {
    }
  }

  lemma {:induction false} RunProgress(code: PageCode, infos: seq<UrlInfo>, provided: Option<string>, o: Outcomes)
    requires |o.acquisitions| == |infos|
    ensures ProgressOk(RunPatches(code, infos, provided, o), |infos|)
  {
    var n := |infos|;
    var ts := Transcripts(infos, o.acquisitions);
    var fin := Finish(code, ts, n, provided, o);
    assert ProgressOk([StartPatch(n)], n);
    LoopProgress(infos, n);
    FinishProgress(code, ts, n, provided, o);
    ProgressOkAppend([StartPatch(n)], LoopPatches(infos, n), n);
    ProgressOkAppend([StartPatch(n)] + LoopPatches(infos, n), fin, n);
  }

  lemma {:induction false} LoopProgress(infos: seq<UrlInfo>, n: nat)
    requires |infos| == n
    ensures ProgressOk(LoopPatches(infos, n), n)
  {
  }

  lemma {:induction false} FinishProgress(code: PageCode, ts: seq<TranscriptResult>, n: nat, provided: Option<string>, o: Outcomes)
    ensures ProgressOk(Finish(code, ts, n, provided, o), n)
  {
    var fin := Finish(code, ts, n, provided, o);
    if Successful(ts) != [] {
      var c := Conclusion(code, ts, n, provided, o);
      assert c.progress.Some? ==> c.progress == Some(Progress(n, n, CompleteStage));
      assert fin == [SummaryStagePatch(n), c];
    }
  }

  // ---------------------------------------------------------------------------
  // The session a run leaves behind

  lemma {:induction false} ComposeOne(a: SessionPatch)
    ensures Compose([a]) == a
  {
    assert [a][..0] == [];
    ThenNoChange(a);
  }

  lemma {:induction false} ComposeTwo(a: SessionPatch, b: SessionPatch)
    ensures Compose([a, b]) == Then(a, b)
  {
    assert [a, b][..1] == [a];
    ComposeOne(a);
  }

  /** The progress updates of the loop fold to the last of them. */
  lemma {:induction false} ComposeLoop(infos: seq<UrlInfo>, n: nat)
    ensures infos == [] ==> Compose(LoopPatches(infos, n)) == NoChange
    ensures infos != [] ==>
              Compose(LoopPatches(infos, n)) == ProgressPatch(|infos| - 1, n, infos[|infos| - 1].platform)
    decreases |infos|
  {
    if infos != [] {
      var k := |infos| - 1;
      var p := ProgressPatch(k, n, infos[k].platform);
      LoopPatchesSnoc(infos, k, n);
      assert infos[..k + 1] == infos;
      var init := LoopPatches(infos[..k], n);
      assert (init + [p])[..|init + [p]| - 1] == init;
      ComposeLoop(infos[..k], n);
      ThenNoChange(p);
    }
  }

  /** The stored session after a run is the session before it, merged once
      with the start, the fold of the loop, and the fold of the end. */
  lemma {:induction false} FinalSession(code: PageCode, infos: seq<UrlInfo>, provided: Option<string>, o: Outcomes,
                     m: map<string, Session>, id: string, now: int)
    requires |o.acquisitions| == |infos| && id in m
    ensures id in ApplyAll(m, id, RunPatches(code, infos, provided, o), now)
    ensures ApplyAll(m, id, RunPatches(code, infos, provided, o), now)[id] ==
              Merge(m[id], Then(Then(StartPatch(|infos|), Compose(LoopPatches(infos, |infos|))),
                                Compose(Finish(code, Transcripts(infos, o.acquisitions), |infos|, provided, o))), now)
  {
    var n := |infos|;
    var loop := LoopPatches(infos, n);
    var fin := Finish(code, Transcripts(infos, o.acquisitions), n, provided, o);
    ApplyAllIsMerge(m, id, [StartPatch(n)] + loop + fin, now);
    ComposeAppend([StartPatch(n)] + loop, fin);
    ComposeAppend([StartPatch(n)], loop);
    ComposeOne(StartPatch(n));
  }

  /** A merge with the start, any progress-only fold of the loop, and the end. */
  lemma {:induction false} MergeRun(s0: Session, n: nat, loop: SessionPatch, fin: SessionPatch, now: int)
    requires loop == NoChange.(progress := loop.progress)
    requires fin.id.None? && fin.urls.None? && fin.createdAt.None?
    requires fin.notionPageId.None? && fin.notionPageUrl.None?
    ensures var f := Merge(s0, Then(Then(StartPatch(n), loop), fin), now);
            f.id == s0.id && f.urls == s0.urls && f.createdAt == s0.createdAt && f.updatedAt == now &&
            f.notionPageId == s0.notionPageId && f.notionPageUrl == s0.notionPageUrl &&
            f.status == fin.status.GetOr(Processing) && f.topicName == fin.topicName.GetOr(s0.topicName) &&
            f.error == PickOpt(fin.error, s0.error) && f.transcripts == PickOpt(fin.transcripts, s0.transcripts) &&
            f.summary == PickOpt(fin.summary, s0.summary) &&
            f.progress == PickOpt(fin.progress, PickOpt(loop.progress, Some(Progress(0, n, StartStage))))
  {
  }

  lemma {:induction false} LoopFoldShape(infos: seq<UrlInfo>, n: nat)
    ensures Compose(LoopPatches(infos, n)) == NoChange.(progress := Compose(LoopPatches(infos, n)).progress)
  {
    ComposeLoop(infos, n);
  }

  /** When no URL succeeded the run fails with "All URLs failed to process"
      (or with the page client's error, when marking the page failed throws),
      keeps every transcript, has no summary and keeps its title. */
  lemma {:induction false} AllFailedRun(code: PageCode, infos: seq<UrlInfo>, provided: Option<string>, o: Outcomes,
                     m: map<string, Session>, id: string, now: int)
    requires |o.acquisitions| == |infos| && id in m
    requires Successful(Transcripts(infos, o.acquisitions)) == []
    ensures var f := ApplyAll(m, id, RunPatches(code, infos, provided, o), now)[id];
            f.status == Failed && f.transcripts == Some(Transcripts(infos, o.acquisitions)) &&
            f.summary == m[id].summary && f.topicName == m[id].topicName &&
            f.error == Some(if o.failedStatus.Ok? then AllFailedMessage else MessageOf(o.failedStatus.thrown))
  {
    var n := |infos|;
    var ts := Transcripts(infos, o.acquisitions);
    FinalSession(code, infos, provided, o, m, id, now);
    LoopFoldShape(infos, n);
    var fin := Finish(code, ts, n, provided, o);
    var a := FailurePatch(AllFailedMessage, ts);
    if o.failedStatus.Ok? {
      assert fin == [a];
      ComposeOne(a);
    } else {
      var b := FailurePatch(MessageOf(o.failedStatus.thrown), ts);
      assert fin == [a, b];
      ComposeTwo(a, b);
    }
    MergeRun(m[id], n, Compose(LoopPatches(infos, n)), Compose(fin), now);
  }

  /** When some URL succeeded, the run ends with its conclusion, after the
      summary-stage progress report. */
  lemma {:induction false} SucceededRun(code: PageCode, infos: seq<UrlInfo>, provided: Option<string>, o: Outcomes,
                     m: map<string, Session>, id: string, now: int)
    requires |o.acquisitions| == |infos| && id in m
    requires Successful(Transcripts(infos, o.acquisitions)) != []
    ensures var f := ApplyAll(m, id, RunPatches(code, infos, provided, o), now)[id];
            var c := Conclusion(code, Transcripts(infos, o.acquisitions), |infos|, provided, o);
            f == Merge(m[id], Then(Then(StartPatch(|infos|), Compose(LoopPatches(infos, |infos|))),
                                   Then(SummaryStagePatch(|infos|), c)), now)
  {
    var ts := Transcripts(infos, o.acquisitions);
    FinalSession(code, infos, provided, o, m, id, now);
    var c := Conclusion(code, ts, |infos|, provided, o);
    assert Finish(code, ts, |infos|, provided, o) == [SummaryStagePatch(|infos|), c];
    ComposeTwo(SummaryStagePatch(|infos|), c);
  }

  /** A run whose summary and publication succeed completes: the final title,
      the summary, every transcript, and progress at its end. */
  lemma {:induction false} CompletedRun(code: PageCode, infos: seq<UrlInfo>, provided: Option<string>, o: Outcomes,
                     m: map<string, Session>, id: string, now: int)
    requires |o.acquisitions| == |infos| && id in m
    requires Successful(Transcripts(infos, o.acquisitions)) != []
    requires SummaryOf(Transcripts(infos, o.acquisitions), provided, o).Ok?
    requires UpdateStudyPage(code, o.pageUpdate, o.pageAppend, Transcripts(infos, o.acquisitions),
                             SummaryOf(Transcripts(infos, o.acquisitions), provided, o).value, o.processedOn).Ok?
    ensures var f := ApplyAll(m, id, RunPatches(code, infos, provided, o), now)[id];
            var ts := Transcripts(infos, o.acquisitions);
            f.status == Complete && f.topicName == FinalTopic(provided, ts, o.topicReply) &&
            f.summary == Some(SummaryOf(ts, provided, o).value) && f.transcripts == Some(ts) &&
            f.progress == Some(Progress(|infos|, |infos|, CompleteStage)) && f.error == m[id].error
  {
    var n := |infos|;
    var ts := Transcripts(infos, o.acquisitions);
    SucceededRun(code, infos, provided, o, m, id, now);
    LoopFoldShape(infos, n);
    var c := Conclusion(code, ts, n, provided, o);
    assert c == CompletePatch(FinalTopic(provided, ts, o.topicReply), ts, SummaryOf(ts, provided, o).value, n);
    MergeRun(m[id], n, Compose(LoopPatches(infos, n)), Then(SummaryStagePatch(n), c), now);
  }

  /** A run whose summary or publication throws fails with the thrown message,
      keeps every transcript, and stays at the summary stage. */
  lemma {:induction false} FailedAfterLoopRun(code: PageCode, infos: seq<UrlInfo>, provided: Option<string>, o: Outcomes,
                           m: map<string, Session>, id: string, now: int, e: Thrown)
    requires |o.acquisitions| == |infos| && id in m
    requires Successful(Transcripts(infos, o.acquisitions)) != []
    requires SummaryOf(Transcripts(infos, o.acquisitions), provided, o) == Threw(e) ||
             (SummaryOf(Transcripts(infos, o.acquisitions), provided, o).Ok? &&
              UpdateStudyPage(code, o.pageUpdate, o.pageAppend, Transcripts(infos, o.acquisitions),
                              SummaryOf(Transcripts(infos, o.acquisitions), provided, o).value, o.processedOn) == Threw(e))
    ensures var f := ApplyAll(m, id, RunPatches(code, infos, provided, o), now)[id];
            f.status == Failed && f.error == Some(MessageOf(e)) &&
            f.transcripts == Some(Transcripts(infos, o.acquisitions)) &&
            f.summary == m[id].summary && f.topicName == m[id].topicName &&
            f.progress == Some(Progress(|infos|, |infos|, SummaryStage))
  {
    var n := |infos|;
    var ts := Transcripts(infos, o.acquisitions);
    SucceededRun(code, infos, provided, o, m, id, now);
    LoopFoldShape(infos, n);
    var c := Conclusion(code, ts, n, provided, o);
    assert c == FailurePatch(MessageOf(e), ts);
    MergeRun(m[id], n, Compose(LoopPatches(infos, n)), Then(SummaryStagePatch(n), c), now);
  }

  // ---------------------------------------------------------------------------
  // The publication of line 183 of src/lib/notion.ts

  /** As written, no run completes: every summary the model step produces has
      no study questions, so publishing it throws once the page properties are
      updated, and the run fails with that error. */
  lemma {:induction false} AsWrittenRunNeverCompletes(infos: seq<UrlInfo>, provided: Option<string>, o: Outcomes,
                                   m: map<string, Session>, id: string, now: int)
    requires |o.acquisitions| == |infos| && id in m
    ensures ApplyAll(m, id, RunPatches(AsWritten, infos, provided, o), now)[id].status == Failed
    ensures Successful(Transcripts(infos, o.acquisitions)) != [] &&
            SummaryOf(Transcripts(infos, o.acquisitions), provided, o).Ok? && o.pageUpdate.Ok? ==>
              ApplyAll(m, id, RunPatches(AsWritten, infos, provided, o), now)[id].error ==
              Some(SplitOfUndefined.message)
  {
    var ts := Transcripts(infos, o.acquisitions);
    if Successful(ts) == [] {
      AllFailedRun(AsWritten, infos, provided, o, m, id, now);
    } else {
      match SummaryOf(ts, provided, o)
      case Threw(e) =>
        FailedAfterLoopRun(AsWritten, infos, provided, o, m, id, now, e);
      case Ok(summary) =>
        assert summary.studyQuestions.None?;
        var published := UpdateStudyPage(AsWritten, o.pageUpdate, o.pageAppend, ts, summary, o.processedOn);
        assert published.Threw?;
        FailedAfterLoopRun(AsWritten, infos, provided, o, m, id, now, published.thrown);
    }
  }

  /** With the corrected page code, a run with a success, a text reply from the
      model and a page client that does not throw completes. */
  lemma {:induction false} CorrectedRunCompletes(infos: seq<UrlInfo>, provided: Option<string>, o: Outcomes,
                              m: map<string, Session>, id: string, now: int)
    requires |o.acquisitions| == |infos| && id in m
    requires Successful(Transcripts(infos, o.acquisitions)) != []
    requires o.summaryReply.TextBlock? && o.pageUpdate.Ok? && o.pageAppend.Ok?
    ensures ApplyAll(m, id, RunPatches(Corrected, infos, provided, o), now)[id].status == Complete
    ensures ApplyAll(m, id, RunPatches(Corrected, infos, provided, o), now)[id].summary ==
              Some(ParseClaudeResponse(o.summaryReply.text))
  {
    CompletedRun(Corrected, infos, provided, o, m, id, now);
  }
}
