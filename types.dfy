/** The shared records of the application (src/types/index.ts). */
module Types {
  import opened Wrappers

  /** The platforms a URL can be classified as. There is no Farcaster tag. */
  datatype Platform = YouTube | Twitter | TikTok | Instagram | Unknown

  /** The lower-case name the source uses for a platform in strings. */
  function PlatformTag(p: Platform): string {
    match p
    case YouTube => "youtube"
    case Twitter => "twitter"
    case TikTok => "tiktok"
    case Instagram => "instagram"
    case Unknown => "unknown"
  }

  datatype Status = Pending | Processing | Complete | Failed

  datatype UrlInfo = UrlInfo(url: string, platform: Platform, id: Option<string>)

  datatype TranscriptResult = TranscriptResult(
    url: string,
    platform: Platform,
    transcript: string,
    error: Option<string>,
    success: bool)

  /** `studyQuestions` is optional: the summariser no longer fills it in. */
  datatype SummaryResult = SummaryResult(
    summary: string,
    keyTakeaways: string,
    howToApply: string,
    studyQuestions: Option<string>,
    connectionsAndPatterns: string)

  datatype Progress = Progress(current: nat, total: nat, stage: string)

  /** A processing run as the server keeps it. Times are milliseconds since the epoch. */
  datatype Session = Session(
    id: string,
    topicName: string,
    urls: seq<string>,
    status: Status,
    notionPageId: Option<string>,
    notionPageUrl: Option<string>,
    transcripts: Option<seq<TranscriptResult>>,
    summary: Option<SummaryResult>,
    createdAt: int,
    updatedAt: int,
    error: Option<string>,
    progress: Option<Progress>)

  /** The transcripts that succeeded, in their original order. */
  function Successful(ts: seq<TranscriptResult>): (r: seq<TranscriptResult>)
    ensures |r| <= |ts|
    ensures forall i :: 0 <= i < |r| ==> r[i].success
    ensures r == [] <==> forall i :: 0 <= i < |ts| ==> !ts[i].success
    ensures forall t :: t in r <==> t in ts && t.success
  {
    if ts == [] then []
    else
      var rest := Successful(ts[1..]);
      assert forall i :: 1 <= i < |ts| ==> ts[i] == ts[1..][i - 1];
      if ts[0].success then [ts[0]] + rest else rest
  }
}
