# distill, modelled in Dafny

distill turns a handful of social-media and video links into a study page.
A user pastes up to five URLs (YouTube, Twitter/X, TikTok, Instagram). The
server classifies each line, creates a session in an in-memory store, and, in
the background, gets a transcript per URL: a tweet's own text, or the audio
downloaded with `yt-dlp` and transcribed. It then asks Claude for a study
summary and a topic title, builds a Notion page from fixed sections, and
marks the session complete or failed. The browser polls the session's status
and shows the stage and a "k of n" counter. It keeps a capped history of
sessions and results, and offers a follow-up chat whose replies are shown in
light markdown.

The model covers the rules around the network and SDK calls, one module per
source file:

| module | source | form |
|---|---|---|
| `UrlDetector` | src/lib/url-detector.ts | functions and lemmas |
| `SessionStore` | src/lib/session-store.ts | a class over a `map` |
| `ProcessRoute` | src/app/api/process/route.ts | request checks as functions; the pipeline as a method with a loop over the URLs |
| `Claude` | src/lib/claude.ts | functions and lemmas |
| `Notion` | src/lib/notion.ts | the page builder as a class that appends blocks; chunking as a method with a loop |
| `LocalHistory` | src/lib/local-history.ts | a class over the two stored lists |
| `VideoDownloader` | src/lib/video-downloader.ts | functions and lemmas |
| `SessionsRoute` | src/app/api/sessions/route.ts | a function and the `GET` method |
| `ProcessingStatus` | src/components/processing-status.tsx | functions, and the polling as a class |
| `Chat` | src/components/chat.tsx | functions for the markdown, a class for the message list |

Some modules are shared. `Wrappers` holds `Option`, and `Try` for a value or
what was thrown. `Text` models the JavaScript string operations used (`trim`,
`split`, `join`, `toLowerCase`, number formatting) over `seq<char>`.
`Patterns` is a small matcher for the regular expressions. `Types` holds the
records of src/types/index.ts.

Outside effects become inputs:
- the clock is an integer parameter;
- the results of Claude, AssemblyAI, the tweet lookup, `yt-dlp`, Notion and
  `fetch` are supplied outcomes, one per call;
- `localStorage` is a pair of sequences held by a class.

## Model

| member | source | states |
|---|---|---|
| Text.PrefixOfConcat | src/lib/video-downloader.ts:60 | a text starts with its first part |
| Text.SuffixOfConcat | src/lib/video-downloader.ts:78 | a text ends with its last part |
| Text.TrimStart | src/lib/url-detector.ts:74 | the leading white space is dropped, and only that: the result is a suffix that does not start with white space |
| Text.TrimEnd | src/lib/url-detector.ts:74 | the trailing white space is dropped, and only that |
| Text.Trim | src/lib/url-detector.ts:74 | no white space at either end, never longer, and empty exactly for a blank text |
| Text.TrimStartOfNonSpace | src/lib/url-detector.ts:74 | a text that does not start with white space keeps its start |
| Text.TrimEndOfNonSpace | src/lib/url-detector.ts:74 | a text that does not end with white space keeps its end |
| Text.TrimStartSuffix | src/lib/url-detector.ts:74 | what trimming the start keeps is an end of the text |
| Text.TrimEndPrefix | src/lib/url-detector.ts:74 | what trimming the end keeps is a start of the text |
| Text.TrimOfTrimmed | src/components/chat.tsx:22 | trimming is idempotent: a text without surrounding white space is its own trim |
| Text.TrimStartAfterSpace | src/lib/url-detector.ts:74 | white space before a core is dropped |
| Text.TrimEndBeforeSpace | src/lib/url-detector.ts:74 | white space after a core is dropped |
| Text.TrimAround | src/lib/url-detector.ts:74 | a trimmed core between white space is exactly what trimming gives |
| Text.Split | src/lib/url-detector.ts:73 | at least one part, no part holds the separator, and the parts joined with it give the text back |
| Text.SplitNoSeparator | src/components/chat.tsx:17 | a text without the separator is one part |
| Text.SplitAtSeparator | src/components/chat.tsx:17 | the first separator ends the first part |
| Text.SplitJoin | src/app/api/process/route.ts:44 | joining parts that do not hold the separator and splitting again gives the parts back |
| Text.JoinAppend | src/lib/notion.ts:33 | joining one more part adds the separator and the part |
| Text.Lower | src/components/processing-status.tsx:16 | each ASCII letter is lower-cased in place, nothing else changes |
| Text.Upper | src/lib/claude.ts:37 | each ASCII letter is upper-cased in place |
| Text.NatToString | src/components/processing-status.tsx:179 | a non-empty run of digits without a leading zero |
| Text.NatToStringValue | src/components/processing-status.tsx:179 | the digits written for a number read back as that number |
| Text.SpaceRun | src/components/processing-status.tsx:20 | a run of white space stays inside the text |
| Text.DigitRun | src/components/processing-status.tsx:20 | a run of digits stays inside the text |
| Text.SpaceRunFacts | src/components/processing-status.tsx:20 | the run is white space and is taken whole |
| Text.DigitRunFacts | src/components/processing-status.tsx:20 | the run is digits and is taken whole |
| Text.NonSpacePrefix | src/lib/claude.ts:115 | the longest prefix without white space |
| Text.SplitOnSpaceRuns | src/lib/claude.ts:115 | at least one piece |
| Text.NonSpacePrefixOfWord | src/lib/claude.ts:115 | a word followed by white space or the end is the longest prefix without white space |
| Text.SplitJoinWords | src/lib/claude.ts:115-117 | words joined by single spaces split back into the same words |
| Text.JoinStartsWithFirst | src/lib/claude.ts:117 | a join starts with its first part |
| Text.SplitTrimmedGivesWords | src/lib/claude.ts:114-115 | the pieces of a non-empty trimmed text are all words |
| Text.SplitAfterWord | src/lib/claude.ts:115 | a word, one space and a text that does not start with white space split into the word and the pieces of the text |
| UrlDetector.DetectPlatformIsFirstMatch | src/lib/url-detector.ts:25-39 | `detectPlatform` equals the reference first-match-wins classifier over the table YouTube, Twitter, TikTok, Instagram; it is `unknown` exactly when no group has a pattern that tests true, and a reported platform's group does test true while every earlier group does not |
| UrlDetector.FirstMatchingGroup | src/lib/url-detector.ts:25-39 | the reference classifier: it answers `unknown` exactly when no group of the table tests true |
| UrlDetector.FirstOfFour | src/lib/url-detector.ts:25-38 | over four groups, the reference classifier is the chain of four `if`s in the source's order |
| UrlDetector.FirstOfFourEntries | src/lib/url-detector.ts:25-38 | over four groups, the group reported tests true and no earlier group does |
| UrlDetector.DetectedGroupTests | src/lib/url-detector.ts:26-37 | a platform other than `unknown` is only reported when one of its own patterns tests true |
| UrlDetector.FirstCapture | src/lib/url-detector.ts:61-68 | the loop returns the first group capture of the patterns in order; it returns nothing only when no pattern gives a non-empty first group |
| UrlDetector.ExtractVideoId | src/lib/url-detector.ts:41-69 | `null` for `unknown`; an id, when given, is non-empty and is the first group of one of that platform's patterns |
| UrlDetector.GroupOfMatchIsPresent | src/lib/url-detector.ts:62-64 | when a pattern whose one capture cannot be empty tests true, `match[1]` is there |
| UrlDetector.PatternsWellFormed | src/lib/url-detector.ts:3-23 | every pattern of every group has exactly one capture group and it matches at least one character |
| UrlDetector.IdPresentIffKnown | src/lib/url-detector.ts:57-80 | a classified line carries an id exactly when its platform is not `unknown` |
| UrlDetector.NonBlankTrimmed | src/lib/url-detector.ts:72-75 | no more lines than given, each trimmed and non-empty |
| UrlDetector.ParseUrls | src/lib/url-detector.ts:71-82 | one entry per line that is non-empty once trimmed, in order, each the classification of that trimmed line |
| UrlDetector.ParseUrlsEntries | src/lib/url-detector.ts:71-82 | every entry's url is non-empty and has no white space at either end, and its id is absent exactly when its platform is `unknown` |
| UrlDetector.NonBlankTrimmedAppend | src/lib/url-detector.ts:73-75 | trimming and dropping blank lines works line by line: it distributes over concatenation |
| UrlDetector.BlankLineDropped | src/lib/url-detector.ts:75 | a white-space-only line contributes no entry |
| UrlDetector.NonBlankTrimmedKeepsCleanLines | src/lib/url-detector.ts:72-75 | lines already trimmed and non-empty all survive in order, duplicates included |
| UrlDetector.ParseUrlsIdempotent | src/lib/url-detector.ts:71-82 | parsing the URLs of a parse, one per line, gives the same parse |
| UrlDetector.NonBlankTrimmedKeepsOut | src/lib/url-detector.ts:74 | trimming adds no character: a character no line holds is in no entry |
| UrlDetector.OneLineOneEntry | src/lib/url-detector.ts:71-82 | a single line is a single entry, whatever it holds: there is no splitting of concatenated URLs |
| UrlDetector.DuplicatesKept | src/lib/url-detector.ts:71-82 | the same URL on two lines gives two equal entries: there is no de-duplication |
| UrlDetector.YouTubeForms | src/lib/url-detector.ts:3-8 | `youtube.com/watch?v=`, `youtu.be/`, `youtube.com/shorts/` and `youtube.com/embed/` followed by an 11-character id classify as YouTube, whatever surrounds them |
| UrlDetector.PlatformDisplayName | src/lib/url-detector.ts:93-106 | total; the answer is `"Unknown"` exactly for the platform `unknown` |
| Patterns.SearchFromFinds | src/lib/url-detector.ts:26 | the leftmost position from which the pattern matches, and no match before it; none only when the pattern matches nowhere (what `test` and `match` of an unanchored pattern find) |
| Patterns.SearchPasses | src/lib/url-detector.ts:26 | a search that only passes positions where the pattern does not match finds what a search from after them finds |
| Patterns.MatchOfPieces | src/lib/url-detector.ts:3-23 | a pattern whose pieces all match in turn from a position matches there, with the pieces' end and captures |
| Patterns.RunLength | src/lib/url-detector.ts:4 | a greedy run of a character class: all its characters are in the class and the next one is not |
| Patterns.FirstAlternative | src/lib/url-detector.ts:11 | an alternative such as `(?:twitter\|x)` gives the first alternative present, and none only when no alternative is present |
| Patterns.PiecesAt | src/lib/url-detector.ts:3-23 | a sequence of pattern pieces matched in turn yields one capture per group, non-empty when the groups cannot match the empty string |
| Types.Successful | src/lib/claude.ts:27 | the successful transcripts: only successful ones, all of them, and none exactly when no transcript succeeded |
| UrlDetector.YouTubeFormMatches | src/lib/url-detector.ts:3-8 | a YouTube marker followed by an 11-character id makes the URL a YouTube URL, whatever surrounds it |
| UrlDetector.TrimKeepsOut | src/lib/url-detector.ts:74 | trimming only removes characters |
| UrlDetector.UrlsOf | src/app/api/process/route.ts:44 | the URLs of a classification, one per entry, in order |
| Patterns.AtomAt | src/lib/url-detector.ts:3-23 | where one element of a pattern that starts at a position ends: never before it, a run at least one character on, an exact-count run exactly that many on |
| Patterns.TestWhenMatchAt | src/lib/url-detector.ts:26 | a pattern tests true as soon as it matches somewhere |
| Patterns.LitInside | src/lib/url-detector.ts:3-23 | a literal placed in a text is found where it was placed |
| Patterns.RunInside | src/lib/url-detector.ts:3-23 | a run placed in a text, followed by the end or a character outside its class, is measured exactly |
| SessionStore.NewSession | src/lib/session-store.ts:29-43 | a new session has the given id, topic, URLs and page, status `pending`, progress `{0, number of URLs, "Initializing"}`, both times equal to the clock, and no transcripts, summary or error |
| SessionStore.Apply | src/lib/session-store.ts:57-66 | an update replaces only its own key, with the merge of the stored session and the patch; an absent key leaves the map as it was; the keys do not change |
| SessionStore.ApplyAll | src/lib/session-store.ts:53-68 | a series of updates to one id keeps the keys and every other session |
| SessionStore.InsertNewest | src/lib/session-store.ts:71-73 | inserting a key into a newest-first order keeps it newest first and adds exactly that key |
| SessionStore.ConsNewest | src/lib/session-store.ts:71-73 | a session at least as new as the head of a newest-first order, put in front, keeps the order newest first |
| SessionStore.NewestTail | src/lib/session-store.ts:71-73 | the rest of a newest-first order is newest first |
| SessionStore.Store.constructor | src/lib/session-store.ts:16 | the store starts empty |
| SessionStore.Store.CreateSession | src/lib/session-store.ts:22-47 | stores the new session under its id, replacing any session already there, and touches no other key |
| SessionStore.Store.GetSession | src/lib/session-store.ts:49-51 | the stored session exactly when the id is present, nothing otherwise; the store is unchanged |
| SessionStore.Store.UpdateSession | src/lib/session-store.ts:53-68 | undefined and no change for an absent id; otherwise the merged session, stored under the same id only |
| SessionStore.Store.GetAllSessions | src/lib/session-store.ts:70-74 | every stored session exactly once, newest `createdAt` first |
| SessionStore.Store.DeleteSession | src/lib/session-store.ts:76-78 | true exactly when the id was present; afterwards it is absent and nothing else changed |
| SessionStore.MergeNoChange | src/lib/session-store.ts:60-64 | an empty update only refreshes `updatedAt` |
| SessionStore.MergeFields | src/lib/session-store.ts:60-64 | the merge takes each supplied field from the update and keeps each other field, and always sets `updatedAt` to the clock |
| SessionStore.MergeThen | src/lib/session-store.ts:60-64 | two merges in a row are one merge of the combined update (the later field wins) |
| SessionStore.ApplyAllAppend | src/lib/session-store.ts:53-68 | applying two series of updates is applying one after the other |
| SessionStore.ApplyAllAbsent | src/lib/session-store.ts:57-58 | updates to an absent id change nothing |
| SessionStore.ApplyAllSnoc | src/lib/session-store.ts:53-68 | one more update applies on top of the earlier ones |
| SessionStore.ThenAssoc | src/lib/session-store.ts:60-64 | combining updates is associative |
| SessionStore.ThenNoChange | src/lib/session-store.ts:60-64 | the empty update is neutral when combining |
| SessionStore.ComposeAppend | src/lib/session-store.ts:60-64 | the combination of a concatenated series of updates is the combination of the two parts |
| SessionStore.ApplyAllIsMerge | src/lib/session-store.ts:53-68 | a series of updates to a present id leaves it present, with the single merge of all the updates |
| ProcessRoute.KnownUrls | src/app/api/process/route.ts:45 | the entries whose platform is not `unknown`: only those, and all of them |
| ProcessRoute.Check | src/app/api/process/route.ts:21-55 | 401 when not signed in; 400 "No URLs provided" for missing or empty `urls`; 400 "Maximum 5 URLs allowed" for more than five; 400 "No valid URLs detected..." when no line has a known platform; admitted exactly when signed in with one to five URLs of which one is known, with the known entries of the parse in order and the topic defaulting to "Processing..."; 500 when the body cannot be read |
| ProcessRoute.AdmittedUrlsAreKnown | src/app/api/process/route.ts:44-45 | every admitted URL has a known platform and an id, and is a non-empty trimmed line |
| ProcessRoute.KnownUrlsOfKnown | src/app/api/process/route.ts:45 | filtering entries that are all known keeps them all |
| ProcessRoute.CleanRequestAdmitted | src/app/api/process/route.ts:29-55 | a signed-in request of one to five clean URLs, each of a known platform, is admitted with exactly those URLs in order |
| ProcessRoute.CleanUrlsKept | src/app/api/process/route.ts:43-45 | clean lines of known platforms, joined by line breaks, parsed and filtered, come back whole and in order |
| ProcessRoute.Post | src/app/api/process/route.ts:18-88 | a refused request answers with its status and message and changes nothing; an admitted one sends the page properties of the topic and URLs; a failed page creation answers 500 and stores nothing; otherwise only the new pending session is stored under the fresh id, and the run is started with the known entries, the page id and the provided topic |
| ProcessRoute.Acquire | src/app/api/process/route.ts:120-160 | one URL: a non-empty tweet text is the transcript and nothing is downloaded; otherwise it succeeds exactly when the download and the transcription do; a failure has an empty transcript and the thrown message; the downloaded file is cleaned up exactly when the download happened, whether or not transcription threw |
| ProcessRoute.AcquireOne | src/app/api/process/route.ts:120-160 | the statements of one iteration compute what `Acquire` describes |
| ProcessRoute.Transcripts | src/app/api/process/route.ts:109-161 | exactly one transcript per URL, in order, each with that URL and platform |
| ProcessRoute.Cleanups | src/app/api/process/route.ts:138-142 | per URL, whether its downloaded file was cleaned up |
| ProcessRoute.LoopPatches | src/app/api/process/route.ts:112-118 | one progress update per URL: `{i, N, "Transcribing <platform> (i+1/N)"}` |
| ProcessRoute.TranscribeAll | src/app/api/process/route.ts:109-161 | the loop collects `Transcripts` and `Cleanups`, and the store receives exactly the loop's progress updates |
| ProcessRoute.Conclude | src/app/api/process/route.ts:163-214 | after the loop, the store receives exactly the updates `Finish` lists for the given page code (the program as written, or the corrected src/lib/notion.ts) |
| ProcessRoute.ProcessUrlsAsync | src/app/api/process/route.ts:90-215 | the whole run with the given page code: the start update, the loop's updates, and the end's updates, in that order, and nothing else; with the page code as written the session always ends `failed` |
| ProcessRoute.StatusesAppend | src/app/api/process/route.ts:99-213 | the statuses of a sequence of updates are those of its parts in turn |
| ProcessRoute.NoStatuses | src/app/api/process/route.ts:112-118 | progress-only updates set no status |
| ProcessRoute.StatusOrder | src/app/api/process/route.ts:99-213 | the statuses a run sets are `processing` then `complete`, or `processing` then `failed` (twice when marking the page failed throws) |
| ProcessRoute.RunStatuses | src/app/api/process/route.ts:99-213 | no update of the transcript loop sets a status: the statuses of a run are `processing` and then those of the updates after the loop |
| ProcessRoute.StatusesAfterStart | src/app/api/process/route.ts:99-161 | after the start, the loop sets no status |
| ProcessRoute.FinishStatuses | src/app/api/process/route.ts:163-214 | after the loop, the run sets `complete`, or `failed` once or twice |
| ProcessRoute.ConclusionStatus | src/app/api/process/route.ts:195-212 | the last update of a run with a success sets `complete` or `failed` |
| ProcessRoute.ProgressOkAppend | src/app/api/process/route.ts:99-205 | that property holds of a concatenation of updates that have it |
| ProcessRoute.RunProgress | src/app/api/process/route.ts:99-205 | every progress report of a run counts against the number of URLs, never past it, and reaches it only at the summary stage or on completion |
| ProcessRoute.LoopProgress | src/app/api/process/route.ts:112-118 | the loop's progress stays below N |
| ProcessRoute.FinishProgress | src/app/api/process/route.ts:177-205 | progress after the loop is `{N, N, ...}` at the summary stage or on completion |
| ProcessRoute.ComposeLoop | src/app/api/process/route.ts:109-118 | the loop's progress updates come to the last of them |
| ProcessRoute.FinalSession | src/app/api/process/route.ts:90-215 | the stored session after a run is one merge with the start, the fold of the loop and the fold of the end |
| ProcessRoute.MergeRun | src/app/api/process/route.ts:99-214 | after the start, a progress-only loop and the end, status, topic, error, transcripts, summary and progress are the end's when it sets them, else the earlier ones |
| ProcessRoute.LoopFoldShape | src/app/api/process/route.ts:112-118 | the loop's updates touch progress only |
| ProcessRoute.AllFailedRun | src/app/api/process/route.ts:163-174 | with no success the run fails with "All URLs failed to process" (or the message marking the page failed threw), keeps all transcripts and has no summary |
| ProcessRoute.SucceededRun | src/app/api/process/route.ts:176-214 | with a success the run ends with its conclusion, after the summary-stage progress |
| ProcessRoute.CompletedRun | src/app/api/process/route.ts:185-205 | a run whose summary and publication succeed is `complete` with the provided or generated topic, the summary, all transcripts and progress `{N, N, "Complete"}` |
| ProcessRoute.FailedAfterLoopRun | src/app/api/process/route.ts:206-214 | a run whose summary or publication throws is `failed` with the thrown message and keeps all transcripts, with the summary-stage progress |
| ProcessRoute.AsWrittenRunNeverCompletes | src/app/api/process/route.ts:189-192 | as written, no run ends `complete`: with a success, publication throws on the missing study questions |
| ProcessRoute.CorrectedRunCompletes | src/app/api/process/route.ts:185-205 | with the corrected page builder, a run with a success, a text reply and working page calls ends `complete` with the parsed summary |
| Claude.Sections | src/lib/claude.ts:34-38 | one section per successful transcript, in order, numbered from 1, each `### Source k: PLATFORM` with the URL and the transcript |
| Claude.SummaryPrompt | src/lib/claude.ts:27-45 | throws "No successful transcripts to summarize" exactly when no transcript succeeded; otherwise the topic line (only for a non-empty topic), the study prompt, and the sections joined by the separator |
| Claude.ParseClaudeResponse | src/lib/claude.ts:74-82 | never fails; the summary is the reply with the surrounding white space removed, empty only for a blank reply; the other three texts are empty and the study questions are left unset |
| Claude.GenerateStudySummary | src/lib/claude.ts:23-72 | the no-success error first; then a result exactly when the first block of the reply is text, and that result is the parse of the reply's text; "Unexpected response type from Claude" for another block; a thrown call is rethrown; a result has no study questions |
| Claude.Take | src/lib/claude.ts:94 | `slice(0, n)`: a prefix of at most n characters, the whole string when it is short enough |
| Claude.TopicPrompt | src/lib/claude.ts:87-104 | a request exactly when a transcript succeeded, and it is the fixed instruction followed by the first 500 characters of the first successful transcript |
| Claude.GenerateTopicName | src/lib/claude.ts:84-124 | "Study Session" with no success, a non-text reply or a thrown call; otherwise the title read from the reply; it never throws |
| Claude.SuccessfulIdempotent | src/lib/claude.ts:27 | filtering the successes twice is filtering once |
| Claude.SuccessfulAppend | src/lib/claude.ts:27 | the filter works transcript by transcript: it distributes over concatenation |
| Claude.FailedTranscriptIgnored | src/lib/claude.ts:27-45 | a failed transcript anywhere in the list does not change the prompt |
| Claude.PromptOfSuccesses | src/lib/claude.ts:27-45 | the prompt of the successes alone is the prompt of all transcripts |
| Claude.PromptStart | src/lib/claude.ts:41-45 | the prompt starts with `The topic is: "<topic>"` exactly when a non-empty topic is given, and with the study prompt otherwise |
| Claude.SingleSuccessPrompt | src/lib/claude.ts:34-45 | one success among failures gives exactly one section, numbered 1 |
| Claude.SuccessAppendsSection | src/lib/claude.ts:34-45 | one more success adds its section, numbered after the others, behind the `\n\n---\n\n` separator |
| Claude.SectionsSnoc | src/lib/claude.ts:34-38 | the sections of one more success are the earlier sections, then its own |
| Claude.SuccessfulSnoc | src/lib/claude.ts:27 | a success at the end of the list stays at the end of the successes |
| Claude.DefaultTopicWords | src/lib/claude.ts:90 | the fallback title is the two words "Study" and "Session" |
| Claude.DefaultTopicShape | src/lib/claude.ts:110-120 | the fallback title is non-empty, trimmed and within the five-word limit |
| Claude.JoinedWordsTrimmed | src/lib/claude.ts:117 | words joined by single spaces make a non-empty text with no white space at either end |
| Claude.LongTitleShape | src/lib/claude.ts:113-118 | a cut title is non-empty, trimmed and has at most five words |
| Claude.TitleShape | src/lib/claude.ts:113-120 | a title read from a reply is never empty, is trimmed, and has at most five words |
| Claude.LongTitleCut | src/lib/claude.ts:115-118 | a reply of more than five words becomes its first five words joined by single spaces, and those are the words of the title |
| Claude.ShortTitleKept | src/lib/claude.ts:114-120 | a non-blank reply of at most five words is the trimmed reply itself |
| Claude.TopicNameShape | src/lib/claude.ts:84-124 | the topic name is never empty and never longer than five words, whatever the reply |
| Notion.RemoveChar | src/lib/notion.ts:48 | `replace(/-/g, "")`: no dash is left, nothing is added, and the text does not grow |
| Notion.PageUrl | src/lib/notion.ts:48 | the URL is `https://notion.so/` followed by the id without any dash |
| Notion.RemoveCharAppend | src/lib/notion.ts:48 | removal works character by character: it distributes over concatenation |
| Notion.RemoveCharAbsent | src/lib/notion.ts:48 | an id without dashes is kept as it is |
| Notion.PageUrlOfDashedId | src/lib/notion.ts:48 | a dashed id such as a UUID gives `https://notion.so/` followed by its groups run together |
| Notion.DashedIdGroups | src/lib/notion.ts:48 | removing the dashes of groups joined by dashes gives the groups run together |
| Notion.CreatePagePropertiesShape | src/lib/notion.ts:19-43 | the new page is titled with the topic, has status "Processing", and its source URLs read back, line by line, as the URLs given |
| Notion.CreateStudyPage | src/lib/notion.ts:10-54 | the page id and URL exactly when the create call returns, the page URL derived from the id; a thrown call is rethrown |
| Notion.UpdateProperties | src/lib/notion.ts:65-84 | the status is always sent, the title exactly when a non-empty topic is given |
| Notion.Paragraphs | src/lib/notion.ts:256-275 | one paragraph per chunk, in order |
| Notion.FoldLinesOk | src/lib/notion.ts:251-267 | the loop keeps its invariant: emitted chunks are non-empty, and a chunk with a line break fits in 1900 characters |
| Notion.ChunksBounded | src/lib/notion.ts:246-277 | every paragraph is non-empty; one holding a line break is at most 1900 characters; one longer than 1900 is a single line of the text |
| Notion.SpansExtend | src/lib/notion.ts:253 | spans over the lines read so far stay valid when one more line is read |
| Notion.SpansPush | src/lib/notion.ts:255-263 | emitting the current chunk adds its span at the end, and the next chunk starts after it |
| Notion.SpanFoldOk | src/lib/notion.ts:251-267 | the chunks emitted by the loop are the lines of their spans joined by line feeds, the spans in order and not overlapping, and the current chunk is the lines since the last span |
| Notion.ChunksAreLineRuns | src/lib/notion.ts:249-276 | each paragraph is a run of consecutive lines of the text joined by "\n", and the runs appear in the order of the text |
| Notion.EmptyTextNoChunks | src/lib/notion.ts:249-276 | empty text adds no paragraph |
| Notion.JoinOfEmptyLines | src/lib/notion.ts:249 | a text whose lines are all empty is only line feeds |
| Notion.ShortLinesOneChunk | src/lib/notion.ts:253-267 | below the limit the loop never emits early: the current chunk is empty only when every line is |
| Notion.ShortTextOneChunk | src/lib/notion.ts:249-276 | a text of at most 1899 characters with a character other than a line feed adds exactly one paragraph |
| Notion.SourceBullets | src/lib/notion.ts:119-140 | one source bullet per transcript, in order, with the upper-case platform, the URL, and " (transcribed)" or " (failed: <error>)" |
| Notion.PageBuilder.constructor | src/lib/notion.ts:109 | the builder starts with no blocks |
| Notion.PageBuilder.Push | src/lib/notion.ts:112 | `push` appends one block and keeps the earlier ones |
| Notion.PageBuilder.AddTextBlock | src/lib/notion.ts:246-277 | only appends, and appends exactly the paragraphs of the chunks of the text |
| Notion.PageBuilder.AddSection | src/lib/notion.ts:146-193 | a level-2 heading followed by the paragraphs of its text |
| Notion.PageBuilder.AddSummarySections | src/lib/notion.ts:145-193 | the five summary sections in their fixed order |
| Notion.PageBuilder.AddTranscriptSections | src/lib/notion.ts:206-221 | for each successful transcript, the heading "Source k: PLATFORM" and its paragraphs |
| Notion.PageBuilder.AddSourceBullets | src/lib/notion.ts:119-140 | exactly the source bullets of all transcripts |
| Notion.BuildPageWith | src/lib/notion.ts:105-244 | the page body in the fixed layout, with the study-questions text given |
| Notion.BuildPageContentAsWritten | src/lib/notion.ts:183 | as written the page can be built only when the summary has study questions: line 183 hands the optional field to a function that calls `split` on it |
| Notion.BuildPageContent | src/lib/notion.ts:105-244 | with a missing `studyQuestions` read as empty text, the page is always built in the fixed layout |
| Notion.SelectAppend | src/lib/notion.ts:105-244 | headings and bullets of a concatenation are those of the parts in turn |
| Notion.SelectOne | src/lib/notion.ts:105-244 | the headings and bullets of one block followed by others |
| Notion.SelectParagraphs | src/lib/notion.ts:246-277 | paragraphs hold no heading and no bullet |
| Notion.SelectBullets | src/lib/notion.ts:119-140 | the source list holds only bullets |
| Notion.SelectWithText | src/lib/notion.ts:153-220 | adding the paragraphs of a text adds no heading and no bullet |
| Notion.SelectPush | src/lib/notion.ts:105-244 | one more block adds at most its own heading or bullet |
| Notion.SelectSection | src/lib/notion.ts:146-193 | a section adds exactly its own title to the level-2 headings |
| Notion.SourceHeadings | src/lib/notion.ts:207-218 | "Source k: PLATFORM" for each of the first n successful transcripts, k from 1 |
| Notion.SourceHeadingsSnoc | src/lib/notion.ts:207-218 | one more transcript adds its heading at the end |
| Notion.SelectTranscripts | src/lib/notion.ts:206-221 | the combined-transcript section adds exactly the source headings at level 3 |
| Notion.SelectSummary | src/lib/notion.ts:145-193 | the summary sections add the five titles in order |
| Notion.SelectTop | src/lib/notion.ts:111-143 | the source list adds the heading "Source URLs" and the bullets |
| Notion.SelectMiddle | src/lib/notion.ts:111-204 | up to the combined transcript, the level-2 headings are the seven fixed titles in order |
| Notion.PageSections | src/lib/notion.ts:105-244 | the page has exactly the fixed level-2 headings in the fixed order, one source bullet per transcript in order, and a "Source k: PLATFORM" heading per successful transcript, numbered from 1 |
| Notion.UpdateStudyPage | src/lib/notion.ts:56-103 | a thrown update call is rethrown; as written, a summary without study questions throws the `split` of undefined; otherwise the page is published exactly when both calls return, with the fixed layout |
| Notion.PageCodesAgree | src/lib/notion.ts:183 | the written and the corrected builder agree on every summary with study questions, and differ only on those without |
| LocalHistory.FindIndex | src/lib/local-history.ts:62 | `findIndex` by id (also at lines 92 and 143): the first index with that id, or -1 exactly when no element has it |
| LocalHistory.Find | src/lib/local-history.ts:171 | `find` by id: the element at that first index, nothing exactly when no element has the id |
| LocalHistory.Cap | src/lib/local-history.ts:73 | `slice(0, n)` (also at line 152): a prefix of at most n elements, the whole list when it is within n |
| LocalHistory.RemoveKey | src/lib/local-history.ts:111 | `filter` by id: exactly the elements of other ids are kept |
| LocalHistory.Keys | src/lib/local-history.ts:62 | the ids of the list, in order |
| LocalHistory.UpsertExisting | src/lib/local-history.ts:64-66 | saving an id already present replaces its first entry in place, at the same index, and keeps the length |
| LocalHistory.UpsertNew | src/lib/local-history.ts:67-70 | saving a new id puts the entry in front of the others |
| LocalHistory.SavedWithinCap | src/lib/local-history.ts:62-73 | after a save the list is within the cap, and, when it was within the cap before, the saved entry is there and is what a lookup of its id finds |
| LocalHistory.FindIndexAt | src/lib/local-history.ts:62 | an element with no earlier element of its id is what `findIndex` finds |
| LocalHistory.SavedKeepsUnique | src/lib/local-history.ts:62-73 | if the ids were unique before a save they are unique after it |
| LocalHistory.RemoveKeyAppend | src/lib/local-history.ts:111 | removal distributes over concatenation, so the kept entries stay in their order |
| LocalHistory.RemoveAbsentKey | src/lib/local-history.ts:111 | removing an absent id changes nothing |
| LocalHistory.UpdateEntry | src/lib/local-history.ts:91-97 | the length is kept; an absent id changes nothing; otherwise only the first entry of that id changes, to its merge with the updates |
| LocalHistory.UpdateKeepsOrder | src/lib/local-history.ts:91-97 | an update that does not change the id keeps the order of the ids |
| LocalHistory.LocalStore.constructor | src/lib/local-history.ts:40-50 | nothing stored yet |
| LocalHistory.LocalStore.GetLocalHistory | src/lib/local-history.ts:40-50 | the stored history, with no change |
| LocalHistory.LocalStore.SaveToLocalHistory | src/lib/local-history.ts:55-79 | the history becomes the first 50 entries after replacing or prepending the session; the results are untouched |
| LocalHistory.LocalStore.UpdateLocalHistory | src/lib/local-history.ts:84-101 | the history becomes the entry-wise update; the results are untouched |
| LocalHistory.LocalStore.RemoveFromLocalHistory | src/lib/local-history.ts:106-116 | the history loses every entry of that id; the results are untouched |
| LocalHistory.LocalStore.ClearLocalHistory | src/lib/local-history.ts:121-130 | both the history and the results are emptied |
| LocalHistory.LocalStore.SaveSessionResult | src/lib/local-history.ts:135-158 | the results become the first 20 after replacing or prepending the result; the history is untouched |
| LocalHistory.LocalStore.GetSessionResult | src/lib/local-history.ts:163-175 | the first result of that session, or nothing exactly when there is none; nothing changes |
| VideoDownloader.BuildDownloadCommand | src/lib/video-downloader.ts:54-80 | every command starts with the base `yt-dlp -x --audio-format mp3 --audio-quality 0 -o "<outputPath>" --no-playlist` and ends with the URL in double quotes; between them is the `--user-agent` option for Twitter, TikTok and Instagram and nothing for YouTube or any other platform |
| VideoDownloader.Sandwich | src/lib/video-downloader.ts:60-78 | a text placed between two others is found again between them |
| VideoDownloader.SameCommandPerKind | src/lib/video-downloader.ts:63-79 | Twitter, TikTok and Instagram get the identical command; YouTube gets the same one as the default branch |
| VideoDownloader.CommandCarriesShellSyntax | src/lib/video-downloader.ts:66-78 | as written, a URL classified as YouTube (a short link with a valid id) can hold `$`, and it is placed inside the double quotes of the command, where the shell expands it |
| VideoDownloader.QuoteEnd | src/lib/video-downloader.ts:78 | the first single quote at or after a position, or the end |
| VideoDownloader.ReadSingleQuoted | src/lib/video-downloader.ts:78 | the shell reads a single-quoted part as the text between the quotes |
| VideoDownloader.ReadEscapedQuote | src/lib/video-downloader.ts:78 | the shell reads `\'` as a quote |
| VideoDownloader.ReadQuotedPart | src/lib/video-downloader.ts:78 | a single-quoted word with escaped quotes reads back as its text |
| VideoDownloader.ReadAfterQuote | src/lib/video-downloader.ts:78 | the step of that reading for a text that starts with a quote |
| VideoDownloader.QuoteEndAt | src/lib/video-downloader.ts:78 | the search for the closing quote stops at the first one |
| VideoDownloader.ShellQuoteReadBack | src/lib/video-downloader.ts:78 | corrected quoting round trip: the shell reads a single-quoted word back as exactly the text, whatever it holds |
| VideoDownloader.QuotedDownloadCommand | src/lib/video-downloader.ts:54-80 | corrected command: it ends with a space and the URL as one single-quoted word |
| VideoDownloader.QuotedCommandPassesUrl | src/lib/video-downloader.ts:54-80 | with the corrected command the last word the shell reads is exactly the URL |
| VideoDownloader.CastReference | src/lib/video-downloader.ts:170-173 | no user name and hash exactly when the cast pattern does not match (the function then returns null before any request); otherwise a non-empty user name without `/` and a non-empty hash of letters, digits and `x` |
| VideoDownloader.PiecesStep | src/lib/video-downloader.ts:170 | a match of a sequence of pieces starts with a match of its first piece |
| VideoDownloader.CastCaptures | src/lib/video-downloader.ts:170-173 | the cast pattern captures two groups: a user name without `/` and a hash of its class, both non-empty |
| VideoDownloader.RunCaptures | src/lib/video-downloader.ts:170 | the two runs of the path are both captured, non-empty and of their classes |
| VideoDownloader.RunThenRun | src/lib/video-downloader.ts:170 | the same for the two captured runs around a slash |
| VideoDownloader.RunCapture | src/lib/video-downloader.ts:170 | a run captures a non-empty text of its class |
| VideoDownloader.CastReferenceOfCastUrl | src/lib/video-downloader.ts:169-173 | a URL `farcaster.xyz/<user>/<hash>` or `warpcast.com/<user>/<hash>` is read back as exactly that user name and hash |
| VideoDownloader.CastReferenceOfParts | src/lib/video-downloader.ts:169-173 | a URL made of a cast host, a user name and a hash gives back that user name and hash |
| VideoDownloader.CastUrlHost | src/lib/video-downloader.ts:170 | a cast URL starts with one of the two hosts |
| VideoDownloader.CastReferenceFromPieces | src/lib/video-downloader.ts:170-173 | a match at the start of the URL gives the reference |
| VideoDownloader.CastMatch | src/lib/video-downloader.ts:170 | the pieces of the pattern match a cast URL from its start |
| VideoDownloader.HostThenPath | src/lib/video-downloader.ts:170 | the host and then the path |
| VideoDownloader.PlainThen | src/lib/video-downloader.ts:170 | a piece that captures nothing, followed by the others |
| VideoDownloader.CastUrlPath | src/lib/video-downloader.ts:170 | a cast URL has its path right after the host |
| VideoDownloader.PathPieces | src/lib/video-downloader.ts:170 | the path pieces match `/<user>/<hash>` |
| VideoDownloader.SlashAt | src/lib/video-downloader.ts:170 | a slash is matched where it is |
| VideoDownloader.RunAt | src/lib/video-downloader.ts:170 | a run of a class is matched to its end |
| VideoDownloader.HostAt | src/lib/video-downloader.ts:170 | the host alternative matches either host at the start |
| VideoDownloader.FarcasterAt | src/lib/video-downloader.ts:170 | `farcaster.xyz` is matched by the first alternative |
| VideoDownloader.WarpcastAt | src/lib/video-downloader.ts:170 | `warpcast.com` is matched by the second alternative |
| VideoDownloader.FirstOfTwo | src/lib/video-downloader.ts:170 | the second alternative is chosen when the first fails at its first character |
| VideoDownloader.PiecesFour | src/lib/video-downloader.ts:170 | four pieces match in turn from their atoms' ends |
| VideoDownloader.CastLookupUrl | src/lib/video-downloader.ts:173-177 | the address asked for is a `https://warpcast.com/` address, and for a user name and hash as the cast pattern captures them the pattern reads it back as that same user name and hash |
| VideoDownloader.LookupReadBack | src/lib/video-downloader.ts:170-177 | the lookup address is read by the cast pattern as the cast it was built from |
| VideoDownloader.LookupShape | src/lib/video-downloader.ts:177 | the lookup address is the scheme, the Warpcast host and `/<user>/<hash>` |
| VideoDownloader.LookupFound | src/lib/video-downloader.ts:170-177 | the leftmost match in the lookup address is the one after the scheme |
| VideoDownloader.FoundAt | src/lib/video-downloader.ts:170 | a search from a position where the pattern matches returns that match |
| VideoDownloader.ReferenceOfMatch | src/lib/video-downloader.ts:170-173 | the user name and hash are the two captures of the leftmost match |
| VideoDownloader.LookupMatch | src/lib/video-downloader.ts:170-177 | the cast pattern matches the lookup address at position 8 |
| VideoDownloader.LookupScheme | src/lib/video-downloader.ts:177 | no host starts inside `https://` |
| VideoDownloader.WarpcastAt8 | src/lib/video-downloader.ts:170 | the host alternative matches the Warpcast host after the scheme |
| VideoDownloader.NoHostAt | src/lib/video-downloader.ts:170 | no match starts at a character that neither host starts with |
| VideoDownloader.SkipNoHost | src/lib/video-downloader.ts:170 | the search passes over such characters |
| SessionsRoute.SessionList | src/app/api/sessions/route.ts:11-18 | one entry per session in the same order, with the id, topic name, status, Notion page address and creation time copied and the URLs counted |
| SessionsRoute.SessionListHidesDetails | src/app/api/sessions/route.ts:11-18 | sessions that differ only in their transcripts, summary, progress, error, page id or update time give the same list |
| SessionsRoute.SessionListNewestFirst | src/app/api/sessions/route.ts:8-18 | a list made from newest-first sessions is newest first |
| SessionsRoute.SessionListAppend | src/app/api/sessions/route.ts:11 | the list of two runs of sessions is their two lists side by side |
| SessionsRoute.Get | src/app/api/sessions/route.ts:6-20 | every stored session appears exactly once, as its entry, and the entries are newest first |
| ProcessingStatus.CounterEnd | src/components/processing-status.tsx:20 | where a counter `(<digits>/<digits>)` starting at a position ends; it starts with `(` |
| ProcessingStatus.StripCounters | src/components/processing-status.tsx:20 | the counter removal never lengthens the text |
| ProcessingStatus.FormatStage | src/components/processing-status.tsx:12-28 | no stage or an empty one reads "Processing"; a stage mentioning Claude in any case reads "Generating summary", ahead of one mentioning "summary", which reads "Almost done"; any other result has no white space at either end |
| ProcessingStatus.LowerConcat | src/components/processing-status.tsx:16-17 | lower-casing distributes over concatenation |
| ProcessingStatus.ReplaceWordKeepsLower | src/components/processing-status.tsx:23-25 | replacing a word, in any case, by a spelling of it keeps the text up to letter case |
| ProcessingStatus.RecaseKeepsLower | src/components/processing-status.tsx:23-25 | re-casing the platform names changes only the case of letters: same length, same lower-case text |
| ProcessingStatus.SpaceUpToCase | src/components/processing-status.tsx:20-25 | characters equal up to case are white space alike |
| ProcessingStatus.RecaseTrimmed | src/components/processing-status.tsx:20-27 | re-casing a trimmed text leaves it trimmed |
| ProcessingStatus.StripWithoutParen | src/components/processing-status.tsx:20 | a text without `(` loses nothing to the counter removal |
| ProcessingStatus.KeptAt | src/components/processing-status.tsx:20 | where no counter follows the white space at a position, its character is kept |
| ProcessingStatus.SpaceEndsBefore | src/components/processing-status.tsx:20 | the white space from a position ends before a character that is not white space |
| ProcessingStatus.NoCounterAt | src/components/processing-status.tsx:20 | no counter starts before the first `(` |
| ProcessingStatus.StripStep | src/components/processing-status.tsx:20 | before the counter each character is kept |
| ProcessingStatus.StripKeepsText | src/components/processing-status.tsx:20 | text without `(` that does not end in white space is kept whole, and the removal goes on after it |
| ProcessingStatus.StripBeforeCounter | src/components/processing-status.tsx:20 | text without `(` that does not end in white space is kept whole in front of what is removed |
| ProcessingStatus.DigitsAt | src/components/processing-status.tsx:20 | a digit run is measured to its end |
| ProcessingStatus.CounterOfDigits | src/components/processing-status.tsx:20 | a counter `(<n>/<m>)` is recognised to its end, whatever text follows it |
| ProcessingStatus.CounterParts | src/components/processing-status.tsx:20 | the parentheses, the slash and the two numbers of a counter stand where they were put |
| ProcessingStatus.CounterRemoved | src/components/processing-status.tsx:20 | a stage `<text> (<n>/<m>)`, with any white space before the counter, is reduced to the text |
| ProcessingStatus.CounterRemovedAt | src/components/processing-status.tsx:20 | the same for the parts found by position |
| ProcessingStatus.TextBeforeCounter | src/components/processing-status.tsx:20 | the text part's facts carried over to the stage |
| ProcessingStatus.CounterAfterSpaces | src/components/processing-status.tsx:20 | at the white space before the counter the pattern skips the white space and matches the counter to the end |
| ProcessingStatus.StripTextThenCounter | src/components/processing-status.tsx:20 | text, then white space and a counter that ends the stage, leaves the text |
| ProcessingStatus.ThreeParts | src/components/processing-status.tsx:20 | the three parts of a concatenation are found where they were put |
| ProcessingStatus.SpacesBeforeCounter | src/components/processing-status.tsx:20 | white space right before `(` is the whole run |
| ProcessingStatus.CounterLast | src/components/processing-status.tsx:20 | a counter that ends the stage, with its white space, leaves nothing |
| ProcessingStatus.StripAfterCounter | src/components/processing-status.tsx:20 | where white space and a counter start, they and the white space after the counter are dropped and the removal resumes after them |
| ProcessingStatus.CounterInsideRemoved | src/components/processing-status.tsx:20 | a counter anywhere in a stage goes with the white space on both sides of it: the text before it (without `(`, not ending in white space) is kept and the removal goes on with what follows the white space after it |
| ProcessingStatus.RunOfSpaces | src/components/processing-status.tsx:20 | white space up to a character that is not white space, or up to the end, is the whole run |
| ProcessingStatus.StripAroundCounter | src/components/processing-status.tsx:20 | the same, with the counter and its white space found by the pattern |
| ProcessingStatus.StripKeepsPrefix | src/components/processing-status.tsx:20 | text without `(` that does not end in white space is kept at the front |
| ProcessingStatus.CounterBetweenWords | src/components/processing-status.tsx:20 | `a (1/2) b` becomes `ab`: the counter goes with both spaces |
| ProcessingStatus.AbsentLetter | src/components/processing-status.tsx:16-17 | a word one of whose letters the stage lacks is not mentioned |
| ProcessingStatus.LetterOnlyAt | src/components/processing-status.tsx:16-17 | a word whose letter stands at one place only, without its first letter in front, is not mentioned |
| ProcessingStatus.ReplaceAbsent | src/components/processing-status.tsx:23-25 | replacing a word one of whose letters is absent changes nothing |
| ProcessingStatus.ReplaceKeepsPrefix | src/components/processing-status.tsx:23-25 | characters that cannot start the word are kept before the rest is replaced |
| ProcessingStatus.ReplaceStep | src/components/processing-status.tsx:23-25 | a character that cannot start the word is kept |
| ProcessingStatus.ConsAssoc | src/components/processing-status.tsx:23-25 | a character prepended to a concatenation |
| ProcessingStatus.ReplaceOnce | src/components/processing-status.tsx:23-25 | a word that occurs once, whose first letter stands nowhere else, is replaced by its spelling in place and the rest kept |
| ProcessingStatus.ReplaceWordLength | src/components/processing-status.tsx:23-25 | a replacement by a spelling of the word keeps the length |
| ProcessingStatus.ReplaceWordSpells | src/components/processing-status.tsx:23-25 | after a replacement, every occurrence of the word in any case is its spelling, for a word two of whose occurrences cannot overlap |
| ProcessingStatus.ReplacedAt | src/components/processing-status.tsx:23-25 | where the word stands in any case, it is replaced by its spelling and the search goes on after it |
| ProcessingStatus.KeptBefore | src/components/processing-status.tsx:23-25 | where it does not, the character is kept and the search goes on at the next |
| ProcessingStatus.SpelledAfterSpelling | src/components/processing-status.tsx:23-25 | a spelling followed by spelled text is spelled |
| ProcessingStatus.SpelledAfterKept | src/components/processing-status.tsx:23-25 | a kept character at which the word does not start, followed by spelled text, is spelled |
| ProcessingStatus.OccurrenceCarriedBack | src/components/processing-status.tsx:23-25 | an occurrence of any word in the replaced text, in any case, is one at the same place of the original |
| ProcessingStatus.NothingInsideSpelling | src/components/processing-status.tsx:23-25 | no occurrence of the word starts inside its spelling |
| ProcessingStatus.WordAtLater | src/components/processing-status.tsx:23-25 | an occurrence after a prefix is one in the rest |
| ProcessingStatus.ReplaceKeepsSpelled | src/components/processing-status.tsx:23-25 | replacing one word keeps every occurrence of another word spelled when neither can start inside the other |
| ProcessingStatus.KeptAfterSpelling | src/components/processing-status.tsx:23-25 | a spelling of one word followed by text in which another word is spelled keeps the other word spelled |
| ProcessingStatus.NoneInsideSpelling | src/components/processing-status.tsx:23-25 | no occurrence of another word starts inside the spelling of a word it cannot overlap |
| ProcessingStatus.KeptOccurrence | src/components/processing-status.tsx:23-25 | an occurrence of another word at the start of the replaced text is copied as it was |
| ProcessingStatus.ReplaceKeeps | src/components/processing-status.tsx:23-25 | where the word starts nowhere in a stretch, the replacement copies the stretch |
| ProcessingStatus.RecaseSpells | src/components/processing-status.tsx:23-25 | after re-casing, every occurrence of `tiktok`, `youtube` and `instagram`, in any case, reads `TikTok`, `YouTube` and `Instagram` |
| ProcessingStatus.FormatStageSpells | src/components/processing-status.tsx:20-27 | a cleaned stage is shown with every platform name it mentions, in any case, spelled `TikTok`, `YouTube` or `Instagram` |
| ProcessingStatus.PlatformNamesApart | src/components/processing-status.tsx:23-25 | no occurrence of one platform name can start inside an occurrence of itself or of another |
| ProcessingStatus.Differ | src/components/processing-status.tsx:23-25 | two words that differ at a letter do not agree there |
| ProcessingStatus.TranscribingYouTubeShown | src/components/processing-status.tsx:20-27 | the stage "Transcribing youtube (2/3)" is shown as "Transcribing YouTube" |
| ProcessingStatus.ExampleWithoutMentions | src/components/processing-status.tsx:16-17 | that stage mentions neither Claude nor summary |
| ProcessingStatus.RecaseExample | src/components/processing-status.tsx:23-25 | its platform name is re-cased |
| ProcessingStatus.NoTikTokInExample | src/components/processing-status.tsx:23 | it has no TikTok to re-case |
| ProcessingStatus.YouTubeInExample | src/components/processing-status.tsx:24 | its YouTube is re-cased |
| ProcessingStatus.YouTubeOnceInExample | src/components/processing-status.tsx:24 | YouTube occurs once, at 13 |
| ProcessingStatus.YouTubeSpliced | src/components/processing-status.tsx:24 | the re-cased name spliced in |
| ProcessingStatus.NoInstagramInExample | src/components/processing-status.tsx:25 | it has no Instagram to re-case |
| ProcessingStatus.ShownAsIs | src/components/processing-status.tsx:12-28 | a non-empty trimmed stage without `(` and without any of the five words is shown unchanged |
| ProcessingStatus.CleanedAsIs | src/components/processing-status.tsx:20 | a trimmed stage without `(` survives the cleaning |
| ProcessingStatus.RecaseAsIs | src/components/processing-status.tsx:23-25 | a stage without platform names is not re-cased |
| ProcessingStatus.StartStageShown | src/components/processing-status.tsx:12-28 | the first stage the pipeline writes is shown as written |
| ProcessingStatus.CompleteStageShown | src/components/processing-status.tsx:12-28 | the last stage, "Complete", is shown as written |
| ProcessingStatus.SummaryStageShown | src/components/processing-status.tsx:16 | the summarising stage names Claude and is shown as "Generating summary" |
| ProcessingStatus.ClaudeAtEnd | src/components/processing-status.tsx:16 | that stage mentions Claude |
| ProcessingStatus.CounterNumbers | src/components/processing-status.tsx:157-179 | the counter is shown exactly when there is a progress with a total above one; it shows the position one past the current item capped at the total, between 1 and the total |
| ProcessingStatus.CounterText | src/components/processing-status.tsx:178-179 | the counter text is empty exactly when no counter is shown |
| ProcessingStatus.CounterReadsBack | src/components/processing-status.tsx:179 | the two numbers in the text read back as the position and the total |
| ProcessingStatus.FailureMessage | src/components/processing-status.tsx:126-127 | never empty; a non-empty run error is shown as it is |
| ProcessingStatus.Decide | src/components/processing-status.tsx:105-137 | unmounted, nothing happens; mounted, a 2xx reply with a parsed body is stored, and nothing else is; `complete` with a result hands that result to `onComplete`; `failed` reports `data.error` or "Processing failed"; a pending or processing status, and only that, schedules the next poll; a 404 reports "Session not found…", any other failed response "Failed to fetch status", and a throw its message; error, completion and the next poll exclude each other |
| ProcessingStatus.NotFoundIsError | src/components/processing-status.tsx:109-135 | a 404 reports the "Session not found" error and stores nothing |
| ProcessingStatus.FailedRunReported | src/components/processing-status.tsx:125-127 | a failed run is stored and reports its own error, or "Processing failed"; it neither completes nor polls again |
| ProcessingStatus.CompleteWithoutResultStops | src/components/processing-status.tsx:123-130 | a `complete` status without a result is stored, and neither completes, fails nor polls again |
| ProcessingStatus.Poller.constructor | src/components/processing-status.tsx:101-139 | mounting: nothing stored or reported, the first poll about to start |
| ProcessingStatus.Poller.Send | src/components/processing-status.tsx:105-107 | a poll sends its request; nothing else changes |
| ProcessingStatus.Poller.Receive | src/components/processing-status.tsx:117-136 | the reply is handled as `Decide` says; the view keeps reporting at most once and a settled view polls no more |
| ProcessingStatus.Poller.Unmount | src/components/processing-status.tsx:141-144 | the cleanup: unmounted and no poll pending; what was stored or reported is kept |
| Chat.StarFreeRun | src/components/chat.tsx:65 | the run of characters other than `*` stays inside the text |
| Chat.StarFreeFacts | src/components/chat.tsx:65 | that run holds no `*` and ends at the end or at a `*` |
| Chat.BoldEnd | src/components/chat.tsx:65 | a match of the bold pattern at a position ends at least five characters on, and what it covers is `**`, one or more characters other than `*`, and `**` |
| Chat.BoldEndComplete | src/components/chat.tsx:65 | every such segment at a position is the match found there |
| Chat.ConcatTwoThen | src/components/chat.tsx:65 | joining two pieces and then the rest |
| Chat.PartsConcat | src/components/chat.tsx:65 | the pieces of the split joined together give the text back |
| Chat.AlternatesCons | src/components/chat.tsx:65 | plain text, a bold segment, then alternating pieces, alternate |
| Chat.NoBoldBefore | src/components/chat.tsx:65 | text in which no match starts holds no bold segment |
| Text.SliceOfSlice | src/components/chat.tsx:65 | a slice of a slice is the slice of the original between the shifted bounds |
| Chat.PartsAlternate | src/components/chat.tsx:65 | the pieces alternate: plain text without any bold segment at the even places, bold segments at the odd ones, an odd number in all |
| Chat.InlineParts | src/components/chat.tsx:65 | the split of a line at its bold segments: the pieces join back to the line, and plain text alternates with the captured segments |
| Chat.RenderAll | src/components/chat.tsx:66-71 | one shown part per piece, each piece shown by itself |
| Chat.BoldSegmentShown | src/components/chat.tsx:67-68 | a bold segment the split captured is shown bold as the non-empty, star-free text between its markers, under either test |
| Chat.RestorePart | src/components/chat.tsx:67-70 | with the corrected test, a piece of the split shown and its markers written back is the piece |
| Chat.RestoreAllPointwise | src/components/chat.tsx:66-71 | parts that restore one by one restore together to the joined pieces |
| Chat.RestoreRendered | src/components/chat.tsx:66-71 | the same for all the pieces together |
| Chat.FormatInline | src/components/chat.tsx:64-72 | `formatInline`: as many parts as pieces, an odd number; each bold segment of the line is shown bold as its text without the markers; a bold part shows its piece without the two markers and any other part shows its piece as it is; as written, a part is bold exactly when its piece starts and ends with `**`; with the corrected test a part is bold exactly when it is a captured bold segment, every other piece is shown as it is, and writing the markers back around the bold parts gives the line again |
| Chat.RenderedFacts | src/components/chat.tsx:66-71 | the facts of the shown parts, piece by piece |
| Chat.LoneMarkersLostAsWritten | src/components/chat.tsx:67-68 | as written, the text `**` is shown as an empty bold part, so writing the markers back gives `****` |
| Chat.LoneMarkersKeptCorrected | src/components/chat.tsx:67-68 | corrected, the text `**` is shown as it is |
| Chat.LoneMarkersParts | src/components/chat.tsx:65 | the text `**` is one plain piece |
| Chat.StarInsideBoldAsWritten | src/components/chat.tsx:67-68 | as written, `**a*b**` is shown as bold `a*b` though the split did not capture it; corrected, it is shown as it is |
| Chat.StarInsideParts | src/components/chat.tsx:65 | the text `**a*b**` is one plain piece |
| Chat.EmptyBoldAsWritten | src/components/chat.tsx:67-68 | as written, `****` is shown as an empty bold text; corrected, it is shown as it is |
| Chat.EmptyBoldParts | src/components/chat.tsx:65 | the text `****` is one plain piece |
| Chat.NumberedMatch | src/components/chat.tsx:26 | a numbered line is a non-empty digit run, a dot, non-empty white space and a non-empty rest without line breaks |
| Chat.NumberedParts | src/components/chat.tsx:26 | the line is rebuilt from its three captures |
| Chat.NumberedMatchComplete | src/components/chat.tsx:26 | every line of that form matches, with its number; when the rest does not start with white space the captures are exactly the parts it was built from |
| Chat.ClassifyLine | src/components/chat.tsx:18-58 | a line shows nothing exactly when it is blank; otherwise the trimmed line is shown by the first of the five forms it has: numbered item with its number and formatted rest, bullet with the formatted text after its marker, heading without `## `, bold line without its markers (empty, as written, for a line shorter than four characters), paragraph |
| Chat.ClassifyTrimmed | src/components/chat.tsx:25-57 | the block of a non-empty trimmed line has the form and content that its precedence says |
| Chat.ClassifyUnnumbered | src/components/chat.tsx:36-57 | a trimmed line that is not a numbered item is shown by the first of bullet, heading, bold line and paragraph whose test it passes, with the content that form takes |
| Chat.LineReadsBack | src/components/chat.tsx:18-58 | with the corrected test, the block of a line, with its markers written back, is the trimmed line; a numbered item loses only the white space after its dot |
| Chat.NumberedItemShown | src/components/chat.tsx:26-34 | a line `<n>.<space><rest>` is shown as item `n` with its formatted rest |
| Chat.DashBulletShown | src/components/chat.tsx:37-44 | a line `- <text>` is shown as a bullet with the formatted text |
| Chat.LoneMarkerLine | src/components/chat.tsx:52-53 | as written, a line that is only `**` is shown as an empty bold line; corrected, it is a paragraph showing `**` |
| Chat.FormattedText | src/components/chat.tsx:16-61 | one block per line of the reply split at line feeds, each line classified, and nothing exactly for the blank lines |
| Chat.FormattedTextCons | src/components/chat.tsx:17 | a reply is shown as its first line, then the rest |
| Chat.FormattedTextOneLine | src/components/chat.tsx:17 | a reply without line feeds is one line |
| Chat.ChatBox.constructor | src/components/chat.tsx:75-77 | no messages, an empty box, no answer awaited |
| Chat.ChatBox.Type | src/components/chat.tsx:171 | typing sets the box and nothing else |
| Chat.ChatBox.Submit | src/components/chat.tsx:89-106 | blank input, or a submission while an answer is awaited, changes and sends nothing; otherwise the trimmed input is appended as a question, the box is cleared, an answer is awaited, and the earlier messages with the question are sent; questions and answers keep alternating |
| Chat.ChatBox.Receive | src/components/chat.tsx:108-119 | exactly one answer is appended, the reply or the fallback text when the request failed, and the answer is no longer awaited |

## Left out

- Network and SDK calls: the Anthropic, AssemblyAI and Notion clients, the tweet lookup, the Neynar and Warpcast requests in `fetchFarcasterCast` after the address is built, and `fetch` in the browser. Each becomes a supplied outcome.
- `yt-dlp` execution, temporary files and their deletion: the command text is modelled; running it is represented by a supplied outcome and a recorded cleanup.
- `validateUrl` and the option `(?:https?://)?(?:www\.)?` prefixes of the platform patterns: in a pattern that is not anchored, these prefixes change neither whether it matches nor what it captures, so they are dropped.
- Regular expressions are matched possessively by `Patterns`, which equals JavaScript backtracking for the patterns used here. `Chat.NumberedMatch` writes out the one place where backtracking matters.
- Strings are sequences of characters, not UTF-16 code units. Case mapping covers ASCII letters only.
- Clocks: `Date.now()` and the ISO time strings are integer and string parameters.
- Concurrency: `processUrlsAsync` runs detached and is not awaited (src/app/api/process/route.ts:74). The model runs it to its end as one call, with no overlap between requests.
- Sort ties: `getAllSessions` sorts by `createdAt`. The model keeps one newest-first order and states it only up to equal creation times.
- Authentication is a boolean input to `POST`.
- JSON parsing and `localStorage` errors: the `try`/`catch` around them and the `typeof window` guards are not modelled.
- The 500 answer of the sessions route (src/app/api/sessions/route.ts:21-27) is not modelled, because nothing in the model can throw there.
- The progress bar's percentage (src/components/processing-status.tsx:161-169) is floating-point arithmetic.
- In the chat: scrolling, focus, key handling, and the markup of the rendered elements. The chat route itself is not part of this model.
- Chat.ChatBox.Receive: a successful reply whose body has no `response` field would append an undefined content. The model's reply is always a string.
- ProcessingStatus.Poller: the two-second timer is a flag saying a poll is due, not a time.
- De-duplication of URLs, a Farcaster platform tag, and TikTok checked before Twitter are described for the project but are not in its code. The model follows the code: `UrlDetector.DuplicatesKept` and `UrlDetector.DetectPlatformIsFirstMatch` state what it does instead.

## Findings

| source | as written | input that shows it | evidently intended | confidence | as-written member | corrected member |
|---|---|---|---|---|---|---|
| src/lib/notion.ts:183 | `buildPageContent` hands the optional `summary.studyQuestions` to `addTextBlock`, whose `text.split` (line 249) needs a string; `parseClaudeResponse` never sets the field (src/lib/claude.ts:76-81). `updateStudyPage` sets the page properties first (src/lib/notion.ts:84-87) and builds the content only afterwards (src/lib/notion.ts:92), so `Notion.UpdateStudyPage` with the as-written page code throws after the properties are set | any run in which at least one URL succeeds: the summary has no study questions, the page update throws after its properties are set, and the run ends `failed` | an absent field treated as empty text, so the page content is appended and the run completes | not executed | ProcessRoute.AsWrittenRunNeverCompletes | Notion.BuildPageContent |
| src/lib/video-downloader.ts:54-80 | the URL is put between double quotes in a shell command without escaping, and the platform patterns are not anchored, so text after a valid video id passes | `https://youtu.be/dQw4w9WgXcQ$(id)` is classified as YouTube, and the shell expands `$(id)` | the URL passed to `yt-dlp` as one literal word, e.g. single-quoted with its quotes escaped | not executed | VideoDownloader.CommandCarriesShellSyntax | VideoDownloader.QuotedDownloadCommand |
| src/components/chat.tsx:67-68 | a piece of the split is shown bold whenever it starts and ends with `**`, whether or not the split captured it as a bold segment | `**` and `***` (the two markers overlap; the asterisks disappear), `****` (an empty bold text), `**a*b**` (shown bold as `a*b`, though the pattern `\*\*[^*]+\*\*` does not match it); at lines 52-53 the same start-and-end test makes a line `**` or `***` an empty bold line | only the captured segments `**<text without *>**` are bold, every other piece is shown as it is | not executed | Chat.StarInsideBoldAsWritten | Chat.FormatInline |
