# Video repurposing platform: a verified model of its bookkeeping logic

The system takes an uploaded video and repurposes it into clips for four
platforms: YouTube Shorts, YouTube ads, display ads and Performance Max. It
then shows the job's progress and results on a Next.js dashboard. This
project is a Dafny model of the logic around that pipeline that is not machine
learning, rendering or I/O, together with proofs about that logic. It covers:

- **Engagement scoring and file naming** (`EngagementUtils`). This is the
  rule-based `predict_engagement` and `generate_output_filename`, with the
  clock reading passed in.
- **Text, subtitle and crop arithmetic of the video code.**
  - `Drawtext` covers FFmpeg drawtext truncation, escaping and filter
    composition.
  - `Subtitles` covers subtitle segmentation and timing
    (`process_segments_for_shorts`).
  - `AssSubtitles` covers the ASS time format and Dialogue line.
  - `CropMath` covers the integer crop windows and clip clamps of both
    `content.py` files.
- **The job lifecycle.**
  - `JobRunner` covers the trace of status updates the backend job runner
    posts and its contents list.
  - `JobStore` covers the Next.js routes that create jobs, start the
    processor, accept updates and list jobs. The job store is a map from id
    to job record.
  - `JobTypes` holds the `JobStatus` enum.
- **Pipeline bookkeeping of `process_video`** (`Pipeline`). This is the
  platform directory and settings tables, the per-platform dispatch, the
  metadata record and the summary report.
- **Front-end logic.**
  - `JobsList`: the sort control and comparator, the status colours and the
    row actions.
  - `ProcessingStatus`: the stage index and how each stage is drawn.
  - `UploadForm`: the checkbox state, validation and the request.
  - `ContentCard`: title formatting, the engagement colour, URLs and
    conditional sections.
  - `Header`: the active-link rule and the mobile menu.
- **The static file and listing server** (`VideoServer`).

`Wrappers` (Option and Result), `Text` (string helpers) and `Assoc` (ordered
dictionaries as sequences of pairs, where Python key order matters) support
the rest.

The code that changes state step by step is modelled imperatively. There are
classes for the job store, the runner's sent-update log, the pipeline's
rebindable globals, and the form, sort, menu and playback state. Loops are
methods with invariants. Each such method is proved equal to a specification
function, and the lemmas about that function state what the source promises.

The model follows what the code does, including where that differs from
how the job lifecycle is usually described (queued, then processing, then
completed or failed):

- The process-video route starts `python enhanced_app.py … --platforms …
  --output … --job_id …`, not the job runner script.
- The route never marks a job COMPLETED.
- The update route checks no transition, so a COMPLETED job can go back to
  QUEUED.
- `completedAt` is set only for COMPLETED, not for FAILED.

## Model

| member | source | states |
|---|---|---|
| EngagementUtils.EngagementLevel | backend/modules/utils.py:98 | The level is "High" exactly when the score is at least 75, "Medium" exactly for 50..74, and "Low" exactly below 50. |
| EngagementUtils.ScoreDuration | backend/modules/utils.py:51-80 | The score after the duration rules is 60 plus the platform's table adjustment, and the suggestions are the table's suggestion for that platform and duration. |
| EngagementUtils.EngagementFor | backend/modules/utils.py:51-99 | Every prediction's score is one of 45, 50, 55, 60, 70, 75, and its level is the bucket of that score. |
| EngagementUtils.PredictEngagement | backend/modules/utils.py:39-99 | The step-by-step predictor gives the per-platform rule table with a missing duration read as 0. An unknown platform stays at 60, and the clamp to [0,100] never binds. The suggestions come in order: duration first, then a headline over 50 characters, then a call to action over 20; text never changes the score. |
| EngagementUtils.OutputFilenameParts | backend/modules/utils.py:25-37 | The name starts with platform + "_" and ends with "." + extension, has length \|platform\| + 17 + \|extension\|, and its middle parses back to the clock reading. |
| EngagementUtils.OutputFilenameIsBasename | backend/modules/utils.py:25-37 | A generated name has no directory part: taking the base name of dir/name gives back the name. |
| JobTypes.ParseStatus | frontend/src/types/index.ts:2 | A string is a status exactly when it is one of the four names, and the parsed status prints back as that string. |
| JobTypes.ParseStatusName | frontend/src/types/index.ts:2 | Every status's name parses back to that status. |
| CropMath.ClampShortWindow | modules/content.py:32-33 | The short's window starts at 0 or later and lasts at least one second. Inside a clip of at least one second it stays within the clip, and a window already inside is kept unchanged. |
| CropMath.ClampShortWindowIdempotent | backend/modules/content.py:38-39 | Clamping an already clamped window changes nothing. |
| CropMath.ClampAdWindow | modules/content.py:178-179 | The ad window lies within the clip and is no longer than the requested duration, and a window already inside is kept. |
| CropMath.NineSixteenths | backend/modules/content.py:47 | The 9:16 width of a height-h frame is the floor of 9h/16; the same rule gives the 16:9 height of a width-w frame (modules/content.py:210). |
| CropMath.CenterCrop | modules/content.py:55-57 | The centre crop stays inside the frame and is at most the target width. When the target fits, it starts at w/2 - tw/2 and is 2·(tw/2) wide; otherwise it is the whole frame. |
| CropMath.FfmpegCenterCrop | backend/modules/content.py:162-167 | The FFmpeg crop starts at 0 or later, ends within the frame and is at most the target width. It is exactly the target width when that fits. |
| CropMath.SmartCropWindow | backend/modules/content.py:97-122 | Cropping is handed to background extension exactly when the content is wider than the target in that mode. Content that fits gets a window of exactly the target width. The window stays inside the frame whenever the target fits in the frame or the content is wider than the target; when the target is wider than the frame (a portrait frame taller than 9:16) the edge adjustments place it partly outside, as the source does. |
| CropMath.SquareBox | modules/content.py:188-199 | The square box stays inside the frame. Its side is 2·(min(w,h)/2), within one pixel of min(w,h). |
| CropMath.SquareFfmpegCrop | backend/modules/content.py:1094-1104 | The square FFmpeg crop of side min(w,h) lies inside the frame. |
| CropMath.SquareFrameCut | backend/modules/content.py:1137-1139 | The manual square cut lies inside the frame. |
| CropMath.WideFormatFor | modules/content.py:209-229 | The height is cropped exactly when it exceeds the 16:9 target, and then by 2·(th/2) rows inside the frame; otherwise the frame is resized to the target height. |
| CropMath.WideFfmpegOffset | backend/modules/content.py:1157-1168 | The vertical offset keeps the 16:9 band inside the frame. |
| CropMath.WideFrameCut | backend/modules/content.py:1202-1204 | The manual 16:9 row cut lies inside the frame, is at most the target height, and is exactly the target height when the frame is taller. |
| CropMath.ThumbnailCrop | modules/content.py:303-311 | A thumbnail is cropped only when it is wider than the 9:16 target, and then it gets the centre crop; otherwise the whole width is kept. |
| CropMath.BackendThumbnailCrop | backend/modules/content.py:1317-1357 | The backend thumbnail window stays inside the frame. It is the whole frame when that is no wider than the target, and otherwise exactly the target width. |
| Drawtext.Truncate | backend/modules/content.py:374-375 | Text within the limit is unchanged; longer text becomes its first `keep` characters followed by "...". |
| Drawtext.TruncateBound | backend/modules/content.py:809-810 | With keep = limit - 3, the result is never longer than the limit, is exactly the limit when truncated, and truncating twice equals truncating once. |
| Drawtext.EscapeIsCharwise | backend/modules/content.py:378 | The three chained replacements equal an independent per-character escape. |
| Drawtext.EscapeLength | backend/modules/content.py:484 | The escaped length is the input length plus 3 per quote, 1 per colon and 1 per comma. |
| Drawtext.EscapeProtected | backend/modules/content.py:813 | In escaped text every colon and comma is preceded by a backslash. |
| Drawtext.UnescapeEscape | backend/modules/content.py:393 | Escaping can be undone, so distinct texts give distinct filter arguments. |
| Drawtext.OverlayFilter | backend/modules/content.py:354-407 | The filter is "H,C" when both headline and call to action are non-empty, either one alone when only it is, and none (False) when neither is or when the argument is neither a string nor a dict. A non-empty string gives the headline filter. |
| Drawtext.OverlayFilterStr | backend/modules/content.py:358-360 | A bare string is handled exactly like the dict {'headline': s}. |
| Drawtext.HeadlineFilterText | backend/modules/content.py:370-381 | The headline filter carries the escaped, 60/57-truncated headline between quotes, which reads back to the truncated text. |
| Drawtext.YPosition | backend/modules/content.py:487-491 | "top" gives y = 30, "center" gives (h-text_h)/2, and anything else gives h-70. |
| Drawtext.SubtitleOverlayFilter | backend/modules/content.py:469-494 | No filter exactly for empty text. Otherwise the filter carries the escaped, 80/77-truncated text and ends with the position's y expression. |
| Drawtext.DrawtextExprs | backend/modules/content.py:806-826 | There is one timed drawtext expression per subtitle, in subtitle order. |
| Drawtext.DrawtextFilter | backend/modules/content.py:800-830 | No filter exactly when there are no subtitles; otherwise the comma-join of the per-subtitle expressions. |
| Subtitles.Strip | backend/modules/content.py:600 | Stripping removes exactly the leading and trailing whitespace (every character for which Python's str.isspace holds, Unicode included); the result is empty exactly when the text is all whitespace. |
| Subtitles.StripBlank | backend/modules/content.py:605-606 | A stripped text is blank exactly when the original is all Python whitespace, Unicode whitespace such as \xa0 included. |
| Subtitles.SplitWords | backend/modules/content.py:619 | str.split() gives non-empty words free of Python whitespace (ASCII and Unicode). |
| Subtitles.SplitWordsJoinSpace | backend/modules/content.py:619 | Splitting a space-join of words gives the words back, so split and ' '.join are inverse on word lists. |
| Subtitles.SplitWordsStrip | backend/modules/content.py:600 | Stripping a text does not change its words. |
| Subtitles.NoBreakSpaceSplits | backend/modules/content.py:619 | A no-break space separates words: "a\xa0b" splits into "a" and "b", as Python's str.split() does. |
| Subtitles.UnicodeSpaceStrips | backend/modules/content.py:600 | Unicode whitespace at either end (\xa0, \u3000) is stripped, as Python's str.strip() does. |
| Subtitles.SplitSentences | backend/modules/content.py:610 | The sentence split of a text is its pieces between the runs of `\s` whitespace (Python's Unicode set) that follow a '.', '!' or '?'. |
| Subtitles.SplitSentencesWords | backend/modules/content.py:610 | Splitting into sentences loses no word and keeps the word order. |
| Subtitles.ChunkListsFlatten | backend/modules/content.py:622-640 | Grouping into chunks keeps every word, in order. |
| Subtitles.ChunkListsWordCount | backend/modules/content.py:622-640 | No chunk holds more than max_words_per_segment words. |
| Subtitles.EmptyChunkIff | backend/modules/content.py:628-631 | The loop emits an empty chunk exactly when the first word alone is longer than max_chars_per_line. |
| Subtitles.ChunkLineLength | backend/modules/content.py:628-636 | As written, a line of two or more words can be at most one character over max_chars_per_line; a single word is never split, so a one-word line may be longer. |
| Subtitles.ChunkLineOverflow | backend/modules/content.py:628-636 | With the default limits, the words "a", a 34-character word and "c" give a 36-character line. |
| Subtitles.EmptyChunkExample | backend/modules/content.py:628-631 | A single 36-character word, with the defaults, yields an empty subtitle text. |
| Subtitles.CorrectedChunksWithinLimit | backend/modules/content.py:622-640 | The intended grouping keeps every word in order. Each chunk holds 1 to max_words words, and every line of two or more words fits max_chars. |
| Subtitles.GroupWords | backend/modules/content.py:622-640 | The grouping loop returns exactly the chunk texts of the grouping function. |
| Subtitles.TimeChunksTile | backend/modules/content.py:643-655 | A sentence's n chunks start at the segment start, end at its end and are contiguous. Each lasts (end-start)/n and keeps its text and order. |
| Subtitles.ProcessSentence | backend/modules/content.py:613-655 | A blank sentence gives nothing. Any other gives its grouped chunks timed over the segment span, exactly as the per-sentence function says. |
| Subtitles.ProcessSegment | backend/modules/content.py:598-655 | A segment whose stripped text is shorter than two characters gives nothing. Any other gives exactly the subtitles of its sentences. |
| Subtitles.ProcessSentences | backend/modules/content.py:610-655 | The sentence loop returns exactly the subtitles the specification function gives for the sentences. |
| Subtitles.ProcessSegmentsForShorts | backend/modules/content.py:577-657 | The whole loop nest returns exactly the specification function's subtitles, with defaults 7 words and 35 characters. |
| Subtitles.SentenceShortsWords | backend/modules/content.py:615-640 | The subtitle texts of a sentence hold exactly its words, in order. |
| Subtitles.SegmentShortsWords | backend/modules/content.py:600-606 | A segment whose stripped text is under 2 characters gives no subtitle. Otherwise its subtitles hold exactly its words, in order. |
| Subtitles.TimeChunksWithinSpan | backend/modules/content.py:643-655 | Chunks timed over a forward span lie within it. |
| Subtitles.SentencesShortsWithinSpan | backend/modules/content.py:610-655 | Every subtitle of a segment lies within the segment's span. |
| AssSubtitles.Trunc | backend/modules/content.py:880-883 | Python's int() truncates toward zero: the floor for non-negative values and minus the floor of the negation otherwise. |
| AssSubtitles.TimePartsMeaning | backend/modules/content.py:878-884 | For t ≥ 0, minutes and seconds are below 60 and centiseconds below 100. 3600h + 60m + s is the whole seconds of t, and 100 times that plus cs is the whole centiseconds. |
| AssSubtitles.FormatTimeNoComma | backend/modules/content.py:884 | A formatted time contains no comma, so it cannot break a Dialogue field. |
| AssSubtitles.ParseFormatTime | backend/modules/content.py:878-884 | "h:mm:ss.cc" reads back into exactly the four fields: hours unpadded, the rest two digits. |
| AssSubtitles.UnescapeEscapeCommas | backend/modules/content.py:709 | Escaping commas as \, can be undone, and the escaped text never starts with a bare comma. |
| AssSubtitles.ParseDialogueLine | backend/modules/content.py:704-712 | A Dialogue line splits back into the formatted start, the formatted end and the original text. |
| AssSubtitles.WriteEvents | backend/modules/content.py:704-712 | The event loop writes one Dialogue line per subtitle, in order. |
| Pipeline.RootedDirs | backend/enhanced_app.py:28-33 | The rooted table has exactly the given keys, in order. |
| Pipeline.RemapDirs | backend/enhanced_app.py:70-76 | Re-rooting keeps the keys and their order. |
| Pipeline.LookupRootedDirs | backend/enhanced_app.py:70-76 | A rooted key's directory is the key joined onto the root, and any other key has none. |
| Pipeline.RemapDirsMeaning | backend/enhanced_app.py:70-76 | Given an output directory, every platform directory becomes join(output_dir, key) with the key set unchanged, and re-rooting again gives the same table. |
| Pipeline.DefaultDirsMeaning | backend/enhanced_app.py:27-33 | The default table has the four platform keys in declared order, each under "outputs/". |
| Pipeline.SettingsTable | backend/enhanced_app.py:36-53 | Settings exist exactly for the four platforms: shorts 60 s 9:16, YouTube ads 15 s 16:9, display ads 6 s 1:1, Performance Max 20 s 16:9. |
| Pipeline.TitleCase | backend/enhanced_app.py:124 | str.title upper-cases a letter that starts a run of letters and lower-cases every other letter. |
| Pipeline.TitleCaseIdempotent | backend/enhanced_app.py:124 | Title-casing twice is title-casing once. |
| Pipeline.AdFormatOfYoutubeAds | backend/enhanced_app.py:124 | "youtube_ads" becomes "Youtube Ads", which differs from the "YouTube Ads" spelling the creative generator tests for. |
| Pipeline.DispatchTable | backend/enhanced_app.py:127-152 | Only youtube_shorts makes a short call, ending at timestamp + 60 with the creatives' headline and call to action. Every other platform makes an ad call of 15, 6 or 20 seconds, and all calls start at the first timestamp. |
| Pipeline.LoopAfterError | backend/enhanced_app.py:115-203 | Once an iteration raises, later platforms are never reached. |
| Pipeline.AsWrittenThumbnailFails | backend/enhanced_app.py:155-165 | As written, the first known platform renders its video and then raises TypeError at the thumbnail call, leaving no results. |
| Pipeline.ResultForWellFormed | backend/enhanced_app.py:160-203 | A stored entry carries its platform's paths, the same names in its metadata, the table's duration and ratio, the first timestamp and the engagement prediction. |
| Pipeline.StepSucceeds | backend/enhanced_app.py:118-203 | With the thumbnail call repaired, a known platform's iteration succeeds, makes its render call and stores its well-formed entry. |
| Pipeline.LoopSnoc | backend/enhanced_app.py:115-203 | A completing iteration appends its call and stores its entry under its platform. |
| Pipeline.CorrectedLoopCompletes | backend/enhanced_app.py:115-203 | With the thumbnail call repaired, a run over known platforms completes. It makes one render call per platform and stores only well-formed entries. |
| Pipeline.CorrectedLoopKeys | backend/enhanced_app.py:197-203 | In a completed run the results dictionary holds each processed platform exactly once. |
| Pipeline.CreatedContent | backend/enhanced_app.py:214-221 | created_content has exactly the keys of the results. |
| Pipeline.CreatedContentEntries | backend/enhanced_app.py:214-221 | Each created_content entry holds the base names of the video and thumbnail paths and the copied predicted engagement and level, in the results' order. |
| Pipeline.CorrectedRunSummary | backend/enhanced_app.py:207-221 | The summary of a completed run names the input's basename and the processed platforms. It lists exactly those platforms, each with its metadata file names, a score from the reachable set and the level of that score. |
| Pipeline.ProcessPlatform | backend/enhanced_app.py:118-203 | One loop iteration, calling the engagement predictor, equals the iteration function. |
| Pipeline.BuildSummary | backend/enhanced_app.py:207-221 | The summary loop builds exactly the summary function's report. |
| Pipeline.RunPlatforms | backend/enhanced_app.py:115-203 | The platform loop equals the loop function: one iteration per platform until one raises. |
| Pipeline.PipelineState.constructor | backend/enhanced_app.py:27-33 | OUTPUT_DIR starts as "outputs" and PLATFORM_DIRS as the default table. |
| Pipeline.PipelineState.Rebase | backend/enhanced_app.py:70-76 | OUTPUT_DIR is rebound to the root and every platform directory is re-rooted under it. |
| Pipeline.PipelineState.ProcessVideo | backend/enhanced_app.py:55-224 | process_video re-roots only when an output directory is given, and the platforms default to the table's keys. An error gives a failure and no summary; otherwise the results and a summary written to OUTPUT_DIR/summary_report.json. |
| JobRunner.PayloadOf | backend/process_video_job.py:25-32 | The payload always has the job id, status and progress, and has contents exactly when the list is non-empty. |
| JobRunner.ContentFor | backend/process_video_job.py:89-101 | A result yields a content element exactly when it has both its video and thumbnail paths. |
| JobRunner.ContentsMeaning | backend/process_video_job.py:89-101 | The contents list exists exactly when every result has both paths, and then has one element per result in the results' order. |
| JobRunner.JobTraceShape | backend/process_video_job.py:61-117 | Every run posts 1 to 4 updates: a prefix of PROCESSING 10/20/90, then a terminal update. A failure is FAILED 0; the run returns True exactly when the last update is COMPLETED, which is then the fourth and carries contents at 100. |
| JobRunner.JobTraceSuccess | backend/process_video_job.py:63-117 | The run succeeds exactly when the video exists, the directory is created and process_video returns a non-empty dictionary whose every entry has both paths. The contents then mirror the results, with the platform upper-cased. |
| JobRunner.EntriesOf | backend/process_video_job.py:89-101 | The runner reads one entry per pipeline result, in order. |
| JobRunner.PipelineContents | backend/process_video_job.py:89-106 | Fed a dictionary built by the pipeline, the run succeeds exactly when it is non-empty. Every content element then carries its result's paths and metadata, with no defaults used. |
| JobRunner.ParseArgs | backend/process_video_job.py:121-128 | Fewer than five argv entries exit with status 1. |
| JobRunner.ParseArgsPlatforms | backend/process_video_job.py:125-128 | The platform list joins back with "," to argv[4], and no platform contains a comma. |
| JobRunner.Runner.constructor | backend/process_video_job.py:13-32 | No update has been posted yet. |
| JobRunner.Runner.UpdateJobStatus | backend/process_video_job.py:13-40 | Each call posts exactly one payload of the described shape. |
| JobRunner.Runner.BuildContents | backend/process_video_job.py:89-101 | The contents loop gives exactly the contents function. |
| JobRunner.Runner.ProcessVideoJob | backend/process_video_job.py:48-117 | The runner posts exactly the job trace and returns its success flag. |
| JobRunner.ContentsStops | backend/process_video_job.py:89-101 | Once one result lacks a path, the whole contents list fails. |
| JobStore.CommandArguments | frontend/src/app/api/process-video/route.ts:45-50 | When no value contains a space, the command splits into cd ../backend && python enhanced_app.py, the video path, --platforms and each platform, --output and the directory, and --job_id and the id. An empty platforms array leaves one empty word after --platforms. |
| JobStore.ProcessVideoOutcomes | frontend/src/app/api/process-video/route.ts:13-91 | Malformed platforms give 500 and a missing video 400, and neither writes anything. Otherwise exactly one new job is created and all others are left alone. Array platforms give 200 with the id, a PROCESSING job with startedAt and a command; other platforms give 500 with the job left QUEUED. The route never makes a job COMPLETED. |
| JobStore.ExecCallbackOutcomes | frontend/src/app/api/process-video/route.ts:62-78 | An exec error marks only that job FAILED with its message, keeping its progress. A successful exit changes nothing. |
| JobStore.JobUpdateFor | frontend/src/app/api/update-job/route.ts:19-40 | The update holds progress exactly when given, and a status exactly when the given one is a valid name. completedAt is set, to now, exactly when the status is COMPLETED. |
| JobStore.FileName | frontend/src/app/api/update-job/route.ts:56-57 | The file name contains no slash unless it is the fallback, and is empty only when the fallback is. |
| JobStore.FileNameMeaning | frontend/src/app/api/update-job/route.ts:56-57 | The name is what follows the last slash, or the fallback when that is empty. |
| JobStore.AddContent | frontend/src/app/api/update-job/route.ts:49-98 | A contents element writes records exactly when it has both paths; a missing one throws. |
| JobStore.AddContentRecords | frontend/src/app/api/update-job/route.ts:60-97 | Each element adds one content record, with engagement defaulting to 0. It adds a creative record exactly when creatives are present, and a metric exactly when a prediction is, with the level defaulting to "Medium". |
| JobStore.AddContentsMeaning | frontend/src/app/api/update-job/route.ts:48-98 | The loop throws exactly when some element lacks a path. It never touches the jobs, and without a throw it adds one content record per element. |
| JobStore.AddContentsStops | frontend/src/app/api/update-job/route.ts:48-98 | After the first throw no later element writes anything. |
| JobStore.UpdateOverwritesStatus | frontend/src/app/api/update-job/route.ts:31-45 | Any valid status overwrites the current one, with no transition check, and an unknown name changes nothing. completedAt changes only for COMPLETED. |
| JobStore.UpdateRejects | frontend/src/app/api/update-job/route.ts:11-16 | A missing or empty job id is a 400 and an unknown one a 500, and neither writes anything. A 200 means the job existed. |
| JobStore.AddRunnerContents | frontend/src/app/api/update-job/route.ts:48-98 | The runner's elements never throw and add one content, one creative and one metric record each. |
| JobStore.RunnerCompletion | frontend/src/app/api/update-job/route.ts:19-104 | The runner's final update completes a known job with the posted progress and completedAt = now. It adds one content, one creative and one metric record per element and answers 200. |
| JobStore.InsertNewestFirst | frontend/src/app/api/jobs/route.ts:9-13 | Inserting a job into a newest-first list keeps it newest first and adds exactly that job. |
| JobStore.Store.constructor | frontend/src/app/api/jobs/route.ts:9-13 | The store starts with no jobs and no records. |
| JobStore.Store.ProcessVideo | frontend/src/app/api/process-video/route.ts:8-91 | The route's writes, response and command are exactly the route function's. |
| JobStore.Store.ExecCallback | frontend/src/app/api/process-video/route.ts:62-78 | The exec callback's writes are exactly the callback function's. |
| JobStore.Store.BuildJobUpdate | frontend/src/app/api/update-job/route.ts:19-40 | The field-by-field update equals the update function. |
| JobStore.Store.UpdateJob | frontend/src/app/api/update-job/route.ts:6-111 | The route's writes and response are exactly the update function's. |
| JobStore.Store.ListJobs | frontend/src/app/api/jobs/route.ts:9-13 | The answer is a 200 listing every job exactly once, newest first. |
| JobStore.SortNewestFirst | frontend/src/app/api/jobs/route.ts:9-13 | The ordering of the job map is newest first and lists each job once. |
| JobsList.NextSortMeaning | frontend/src/components/dashboard/JobsList.tsx:25-32 | A click sorts by the clicked column. A new column starts descending and the same column flips; two clicks on one column restore its direction. |
| JobsList.Rank | frontend/src/components/dashboard/JobsList.tsx:41-44 | The status ranks are PROCESSING < QUEUED < COMPLETED < FAILED, all below 4. |
| JobsList.CompareByKey | frontend/src/components/dashboard/JobsList.tsx:35-46 | The comparator is a difference of sort keys, so it is antisymmetric and consistent. |
| JobsList.Insert | frontend/src/components/dashboard/JobsList.tsx:35-46 | Inserting into a key-sorted list keeps it sorted and adds exactly that job. |
| JobsList.SortJobs | frontend/src/components/dashboard/JobsList.tsx:35 | The sorted copy is ordered by key and is a permutation of the jobs. |
| JobsList.SortedRows | frontend/src/components/dashboard/JobsList.tsx:35-46 | The table shows every job exactly as often as given. By date it is oldest first ascending and newest first descending; by status it is in rank order ascending and the reverse descending. |
| JobsList.OneIndicator | frontend/src/components/dashboard/JobsList.tsx:85-103 | Exactly one column header shows an arrow, and it shows the current direction. |
| JobsList.StatusColors | frontend/src/components/dashboard/JobsList.tsx:55-67 | A name gets gray exactly when it is not a status, and the four statuses get four different colours. |
| JobsList.DisplayName | frontend/src/components/dashboard/JobsList.tsx:115 | The shown name is never empty and is the original name when that is non-empty. |
| JobsList.ActionMeaning | frontend/src/components/dashboard/JobsList.tsx:121-148 | PROCESSING and COMPLETED jobs link to /processing/ and /results/ ending in the id; FAILED and QUEUED jobs get disabled buttons. A progress bar appears only for a processing job with progress. |
| JobsList.SortControl.constructor | frontend/src/components/dashboard/JobsList.tsx:21-22 | The table starts sorted by date, descending. |
| JobsList.SortControl.HandleSort | frontend/src/components/dashboard/JobsList.tsx:25-32 | A header click moves the sort state as the next-sort rule says. |
| ProcessingStatus.FindBelow | frontend/src/components/video/ProcessingStatus.tsx:21 | findIndex gives the first stage whose threshold the progress is below, or -1 exactly when there is none. |
| ProcessingStatus.CurrentStage | frontend/src/components/video/ProcessingStatus.tsx:21-22 | The current stage is always one of the five. |
| ProcessingStatus.CurrentStageMeaning | frontend/src/components/video/ProcessingStatus.tsx:12-22 | The current stage is 4 exactly from 90% on. Below that it is 0, 1, 2 or 3 for the bands cut at 25, 50 and 75. |
| ProcessingStatus.CurrentStageMonotone | frontend/src/components/video/ProcessingStatus.tsx:21-22 | More progress never moves the panel back a stage. |
| ProcessingStatus.RenderMeaning | frontend/src/components/video/ProcessingStatus.tsx:34-72 | Stages before the current one are done, with green connectors, and exactly one stage is current. The last stage has no connector and is never done, and the failure banner appears exactly for FAILED. |
| Header.IsActiveMeaning | frontend/src/components/layout/Header.tsx:14-18 | "/" is active only on the root page. Any other link is active on every path extending it, including "/dashboardX" for "/dashboard", and on no other. |
| Header.AtMostOneActive | frontend/src/components/layout/Header.tsx:14-25 | No path highlights two navigation links. |
| Header.MobileMenu.constructor | frontend/src/components/layout/Header.tsx:10 | The mobile menu starts closed. |
| Header.MobileMenu.Toggle | frontend/src/components/layout/Header.tsx:90 | The menu button flips the menu. |
| Header.MobileMenu.FollowLink | frontend/src/components/layout/Header.tsx:110-126 | Following any mobile link closes the menu. |
| UploadForm.ToggleMeaning | frontend/src/components/video/VideoUploadForm.tsx:32-37 | A toggle flips one box and leaves the others. A listed box keeps the key set, and toggling it twice restores the selection. |
| UploadForm.Selected | frontend/src/components/video/VideoUploadForm.tsx:48-50 | The selected platforms are exactly the checked keys. |
| UploadForm.SelectedSingle | frontend/src/components/video/VideoUploadForm.tsx:48-50 | One checkbox contributes its key exactly when it is checked. |
| UploadForm.SelectedAppend | frontend/src/components/video/VideoUploadForm.tsx:48-50 | The checked keys come out in checkbox order: those of a concatenation are the first part's followed by the second's. |
| UploadForm.SelectedDistinct | frontend/src/components/video/VideoUploadForm.tsx:48-50 | With each key listed once, each checked key is sent exactly once. |
| UploadForm.DefaultSelected | frontend/src/components/video/VideoUploadForm.tsx:18-23 | Initially only youtube_shorts is selected. |
| UploadForm.LabelMeaning | frontend/src/components/video/VideoUploadForm.tsx:149 | The label turns only the first underscore into a space, and a name without one is shown unchanged. |
| UploadForm.SubmitMeaning | frontend/src/components/video/VideoUploadForm.tsx:39-99 | A request is sent exactly when a file is chosen and a platform checked. Without one the form shows why and stays as it was. A request carries exactly the checked platforms, as the key-ordered list Selected gives. Afterwards the form is not uploading, clears its error and redirects to /processing/id exactly on acceptance, and any created job is PROCESSING at 0%. |
| UploadForm.FormRequestsStartJobs | frontend/src/components/video/VideoUploadForm.tsx:61-76 | Every request the form sends is one the route answers with 200, a PROCESSING job and a started command. |
| UploadForm.Form.constructor | frontend/src/components/video/VideoUploadForm.tsx:15-23 | The form opens with no file, no error and only YouTube Shorts checked, with submit disabled. |
| UploadForm.Form.ChooseFile | frontend/src/components/video/VideoUploadForm.tsx:26-30 | The first chosen file, if any, replaces the current one, and nothing else changes. |
| UploadForm.Form.TogglePlatform | frontend/src/components/video/VideoUploadForm.tsx:32-37 | A checkbox change applies the toggle and nothing else. |
| UploadForm.Form.Submit | frontend/src/components/video/VideoUploadForm.tsx:39-99 | The submit handler's new state and its submission are exactly the submit function's. |
| ContentCard.FormatPlatformName | frontend/src/components/video/ContentCard.tsx:34-36 | The title has the same length as the platform name. |
| ContentCard.FormatMatchesAdFormat | frontend/src/components/video/ContentCard.tsx:34-36 | For lower-case names with underscores, such as the four platform keys, the card title equals the backend's ad format. |
| ContentCard.FormatKeepsCapitals | frontend/src/components/video/ContentCard.tsx:34-36 | Unlike str.title, the card leaves the rest of a word alone: "AB" stays "AB". |
| ContentCard.ColorIgnoresCase | frontend/src/components/video/ContentCard.tsx:39-50 | The engagement colour does not depend on letter case. |
| ContentCard.BackendLevelColors | frontend/src/components/video/ContentCard.tsx:39-50 | The backend's High, Medium and Low buckets show green, yellow and red. |
| ContentCard.FileUrlSegments | frontend/src/components/video/ContentCard.tsx:58-65 | The media URL's segments are "", api, file, the job id, then the path's own segments. |
| ContentCard.DownloadUrlSegments | frontend/src/components/video/ContentCard.tsx:131-140 | The download URL's segments are "", api, download, the job id, then the path's segments. |
| ContentCard.RenderMeaning | frontend/src/components/video/ContentCard.tsx:31-140 | The player shows the video and the poster the thumbnail. Badge and bar appear together, in one colour, exactly with a prediction. Headline and description appear exactly when present and non-empty, and the downloads name the same files. |
| ContentCard.Playback.constructor | frontend/src/components/video/ContentCard.tsx:31 | The card starts showing the thumbnail. |
| ContentCard.Playback.Play | frontend/src/components/video/ContentCard.tsx:71 | The play button switches to the player. |
| ContentCard.Playback.Ended | frontend/src/components/video/ContentCard.tsx:59 | The end of playback returns to the thumbnail. |
| VideoServer.HeadersBySuffix | frontend/video-server.js:25-36 | .mp4 gets video/mp4 and Accept-Ranges: bytes; .jpg and .jpeg image/jpeg; .png image/png; .json application/json. Exactly the other names get no header. |
| VideoServer.Matching | frontend/video-server.js:58-60 | The filter keeps exactly the files with the suffix. |
| VideoServer.Platforms | frontend/video-server.js:49-50 | The listed platforms are exactly the directory entries that are directories. |
| VideoServer.Result | frontend/video-server.js:52-77 | The result object has exactly one key per listed platform. |
| VideoServer.FilesOfMeaning | frontend/video-server.js:58-76 | A platform's videos, thumbnails and metadata are exactly its .mp4, .jpg and .json files. Each URL is /videos/job/outputs/platform/file, and only videos carry a size. |
| VideoServer.JpegNotListed | frontend/video-server.js:25-36 | A .jpeg file is served as an image but never listed as a thumbnail. |
| VideoServer.ListMeaning | frontend/video-server.js:40-88 | The route gives 404 exactly for a job without an outputs directory and 500 exactly when reading it fails. Otherwise it lists the job id, the platforms and each platform's files. |
| VideoServer.List | frontend/video-server.js:40-88 | The handler's forEach builds exactly the route function's response. |

## Left out

- Machine learning is not modelled: transcription, engaging-moment detection, CLIP and the LLM/insights generator. Their results are opaque inputs, such as the `Inputs` of `Pipeline` and the creatives dictionaries.
- The creative generator's own behaviour is not modelled, because it is an HTTP client. Only the mismatch between its "YouTube Ads" test and the derived "Youtube Ads" is stated.
- Video and image rendering is not modelled: moviepy, OpenCV, PIL, ffmpeg subprocesses, temporary files and fallback cascades. Only the integer and string arithmetic they use is modelled.
- The Prisma database is replaced by maps and sequences in `JobStore.Db`, and Next.js request parsing by the request datatypes.
- The fire-and-forget `exec` becomes a returned command and a separate callback step. This leaves out concurrency and timing.
- The HTTP post of the job runner is a recorded trace; network failures, which it catches, are not modelled.
- File-system reads and writes are not modelled: os.makedirs, json.dump, the summary file and the listing server's readdirSync/statSync. The directory tree is a map, and a failing read is the `Unreadable` case.
- express.static's own serving and its path checks belong to the library. Path normalisation and traversal are not modelled: `NodeJoin` and `PathJoin` concatenate with one separator.
- The job runner calls process_video without output_dir or job_id (backend/process_video_job.py:83). The job runner's model treats process_video's outcome as a parameter, and `JobRunner.PipelineContents` connects it to the pipeline model's results.
- IEEE floating point is not modelled; durations and timestamps are `real`. Python's `str()` of a float in the drawtext expressions is the `render` parameter of `Drawtext.DrawtextExprs`.
- AssSubtitles.TimePartsMeaning: stated only for t ≥ 0. Negative times follow Python's floored `%` and truncating `int()` as written, with no further promise.
- Invalid dates and NaN progress are not modelled. Dates are integers (milliseconds); `formatDate`, the file-size display and other pure presentation are left out.
- The form's `uploading` flag is true only between the request and its reply. The model gives the reply as a parameter, so only the final state is visible.
- The update route's JSON parse failure, a `null` progress, and a `contents` value that is not an array are not modelled. The last is treated as absent.
- The jobs route's 500 on a database failure is not modelled.
- JobsList.SortJobs: proves ordering and permutation but not stability. Array.prototype.sort is stable, and the model's insertion sort keeps equal keys in input order, but that is not stated as a lemma.
- ContentCard.FormatPlatformName: upper- and lower-casing, here and in str.title, are modelled on ASCII letters only.
- JobStore.CommandArguments: stated only when no interpolated value contains a space, because a space would change the shell's word split. For an empty platforms array it states the plain split on spaces, which keeps an empty word that a shell would drop.
- JobStore.Job: the stored job's progress starts at 0, the schema default assumed since the route does not set it. The Prisma schema is not part of this model.
- The results, file, download and static API routes, the progress poller and the remaining pages and components are outside the modelled logic.

## Findings

| source | as written | input that shows it | evidently intended | confidence | as-written member | corrected member |
|---|---|---|---|---|---|---|
| backend/modules/content.py:628-636 | A chunk is closed when `current_length + len(word) > max_chars_per_line`, but the length counts one space per word, so a line of two or more words can reach max_chars + 1 characters | the words "a", a 34-character word and "c" with the defaults 7 and 35 give a 36-character line | every subtitle line is at most max_chars_per_line characters | not executed | Subtitles.ChunkLineOverflow | Subtitles.CorrectedChunksWithinLimit |
| backend/modules/content.py:628-631 | When the first word alone is longer than max_chars_per_line, the empty open chunk is closed and emitted as "" | a single 36-character word with the defaults | no empty subtitle; a long word gets a chunk of its own | not executed | Subtitles.EmptyChunkExample | Subtitles.CorrectedChunksWithinLimit |
| backend/enhanced_app.py:160-165 | generate_thumbnail is called with a `headline=` keyword that its definition (backend/modules/content.py:1274) does not accept, so every known platform raises TypeError after its video is rendered | any run with a known platform and at least one timestamp | the thumbnail call succeeds and every platform gets its result and summary entry | not executed | Pipeline.AsWrittenThumbnailFails | Pipeline.CorrectedLoopCompletes |
