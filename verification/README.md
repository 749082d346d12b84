# Meeting Performance Analyzer — a verified model of its core

Meeting Performance Analyzer takes a recorded meeting (a video or an audio
file), extracts the audio track of a video, sends the audio to a cloud
speech recognizer with speaker diarization, and turns the recognizer's JSON
results into a transcript grouped by speaker. It comes as a web server with an
in-memory job table and a background job per upload, as a single-file
variant of that server, and as a command-line tool.

This Dafny project models the parts of that program that decide something:

| module | file | models |
|---|---|---|
| `Wrappers` | `wrappers.dfy` | `Option` and `Result` |
| `PyStrings` | `py_strings.dfy` | the Python string and path operations the core relies on: truthiness, `a or b`, ASCII `lower`, `os.path.basename`, `Path.name`/`Path.suffix`, `rsplit('.', 1)[0]`, `replace`, `' '.join` |
| `MediaTypes` | `media_types.dfy` | `get_file_type`, `is_video_file`, `is_audio_file` and the two extension lists |
| `SpeakerRuns` | `speaker_runs.dfy` | the run-length grouping of words into speaker segments, with its reference properties (nothing lost, unique, boundaries exactly at speaker changes) |
| `TranscriptionService` | `transcription_service.dfy` | the formatter `_download_and_format_transcription` (its nested loops as methods proved against functions), blob and folder naming, and `transcribe_audio` |
| `Disk` | `disk.dfy` | the local file system: a set of paths and the paths whose removal fails |
| `JobStore` | `job_store.dfy` | the job record, `update_job_status` and the `jobs_db` table as a class |
| `JobsRouter` | `jobs_router.dfy` | `get_job_status`, `list_jobs`, `download_transcription`, `delete_job` (and the unguarded delete of the single-file server) |
| `TranscribeRouter` | `transcribe_router.dfy` | `create_transcription_job` |
| `Processor` | `processor.dfy` | `process_transcription` of the package and of the single-file server |
| `Cli` | `cli.dfy` | `process_file` and the bucket/project resolution of the command-line tool |

Outside effects are parameters. The extractor's result, the cloud's result
(the bucket's objects as already-parsed recognition results), the clock, the
job id and the outcome of a file move are passed in. The file system is a
`FileSystem` object holding the set of existing paths and a map from the paths
whose removal fails to the error message. The job table is a `JobTable` object
holding a map from id to record and the ids in insertion order.

The transcript formatter exists twice, once in
`app/services/transcription_service.py` and once in `transcribe_audio.py`. The
two are line-for-line the same (the second sits six lines further down), and
`get_file_type`, `update_job_status` and the job endpoints are likewise
repeated in `app.py`. Each is modelled once and cited at both places below.
The two `process_transcription` functions and the two `delete_job` handlers
differ in their cleanup, so each variant is modelled separately.

Two behaviours of the code are easy to misread, and the model follows the code:

- The package's processor says it keeps the logic of the single-file server
  ("identical logic to original", `app/background/processor.py:30`), yet its
  cleanup differs. It guards every removal (`app/background/processor.py:78-89`
  and `105-109`) where the single-file server does not (`app.py:164-170` and
  `186-187`), so a removal error changes the outcome only in the single-file
  server (`Processor.CleanupNeverChangesOutcome`,
  `Processor.UnguardedCleanupFailsJob`).
- A failed run removes only the upload (`app/background/processor.py:100-109`).
  An audio track extracted from a video before the failure stays on disk
  (`Processor.ExtractedAudioKeptOnFailure`).

## Model

| member | source | states |
|---|---|---|
| PyStrings.Or | app/background/processor.py:35-36 | `a or b` is truthy iff one of them is, and is `a` whenever `a` is truthy |
| PyStrings.Truthy | app/background/processor.py:38 | Python truthiness of an optional string: present and non-empty (a definition; `Or`, `ResolveSettings` and `KeepUnlessTruthy` state what depends on it) |
| PyStrings.Lower | app/utils/file_utils.py:13 | lower-casing keeps the length and maps every character by ASCII `lower` |
| PyStrings.Basename | app/services/transcription_service.py:247 | the base name holds no '/' |
| PyStrings.PathName | app/utils/file_utils.py:13 | the final path component holds no '/' and is never "." |
| PyStrings.Suffix | app/utils/file_utils.py:13 | a suffix is empty or a '.' followed by at least one character and no further '.' or '/' |
| PyStrings.RFind | app/services/transcription_service.py:249 | the index of the last occurrence of the character, or -1, with none after it |
| PyStrings.IntToString | app/services/transcription_service.py:246-249 | `str` of the timestamp holds no '/' |
| PyStrings.RSplitHead | app/services/transcription_service.py:249 | `rsplit('.', 1)[0]` is a prefix of the string |
| PyStrings.RSplitHeadCut | app/services/transcription_service.py:285 | that prefix is the whole string or stops right before a '.' |
| PyStrings.ReplaceAll | app/services/transcription_service.py:145 | `str.replace`: every non-overlapping occurrence, left to right (a definition; `ReplaceAbsent` and `StripBucketPrefix` state its properties) |
| PyStrings.JoinSpace | app/services/transcription_service.py:175 | `' '.join` (a definition; `JoinSpaceAppend` states its property) |
| PyStrings.Repeat | app/services/transcription_service.py:195 | `"=" * n` has length n and only that character |
| PyStrings.JoinSpaceAppend | app/services/transcription_service.py:174 | joining two non-empty lists with spaces is joining each and putting one space between them |
| PyStrings.SlashJoin | transcribe_audio.py:264-267 | two slash-free parts joined by one '/' hold no "//" |
| PyStrings.StripBucketPrefix | app/services/transcription_service.py:145 | removing "gs://bucket/" from a folder URI gives back the folder name when the name holds no "//" |
| PyStrings.ReplaceAbsent | transcribe_audio.py:151 | `replace` of a pattern that does not occur changes nothing |
| PyStrings.LowerIdempotent | app/utils/file_utils.py:13 | lower-casing twice is lower-casing once |
| PyStrings.PathNameLower | app/utils/file_utils.py:13 | the final component of the lower-cased path is the lower-cased final component |
| PyStrings.SuffixLower | app/utils/file_utils.py:13 | the suffix of the lower-cased path is the lower-cased suffix |
| MediaTypes.ExtensionListsDisjoint | app/utils/file_utils.py:8-9 | there are 12 video and 9 audio extensions and no extension is in both lists |
| MediaTypes.ListedExtensionShape | app.py:81-82 | every listed extension is a '.' and at least two characters, none of them '.' or '/' |
| MediaTypes.GetFileType | app/utils/file_utils.py:11-19 | video iff the lower-cased suffix is a video extension, audio iff it is an audio extension, unknown iff it is in neither list |
| MediaTypes.IsVideoFile | main.py:21-37 | true exactly when the file type is video |
| MediaTypes.IsAudioFile | main.py:40-56 | true exactly when the file type is audio, and then the file is not a video |
| MediaTypes.ClassificationIgnoresCase | app/utils/file_utils.py:13 | lower-casing the name does not change its type |
| MediaTypes.SuffixOfName | app/utils/file_utils.py:13 | a final component `stem + ext` with a non-empty stem has suffix `ext` |
| MediaTypes.ClassifiedByLastExtension | app/utils/file_utils.py:13-17 | a listed last extension alone decides video or audio |
| MediaTypes.NameOfPath | app.py:84 | the final component of `dir/name` is `name` |
| MediaTypes.UnlistedLastExtension | app/utils/file_utils.py:13-19 | a final component `stem + ext` whose last extension lower-cases to no listed one is unknown, whatever dots `stem` holds |
| MediaTypes.BareNameUnlisted | app/utils/file_utils.py:13-19 | the same for a bare file name |
| MediaTypes.BareNameListed | app/utils/file_utils.py:13-17 | a bare file name with a listed last extension is video or audio by that extension alone |
| MediaTypes.InnerExtensionIgnored | app/utils/file_utils.py:13-19 | any slash-free stem followed by ".mp4.txt" is unknown: only the last extension counts |
| MediaTypes.LastExtensionCounts | app/utils/file_utils.py:13-17 | any slash-free stem followed by ".txt.mp3" is audio |
| MediaTypes.UpperCaseExtension | app/utils/file_utils.py:13-15 | "A.MP4" is video |
| MediaTypes.DotFileIsUnknown | app/utils/file_utils.py:13-19 | a hidden file such as ".mp4", in any directory, has no suffix and is unknown |
| MediaTypes.EmptySuffixUnknown | app/utils/file_utils.py:13-19 | a name without a suffix is unknown |
| MediaTypes.KnownTypeHasSuffix | app/utils/file_utils.py:13-17 | a video or audio name has a suffix |
| MediaTypes.SameSuffixSameType | app/utils/file_utils.py:13 | two names with the same suffix have the same type |
| SpeakerRuns.Step | app/services/transcription_service.py:170-181 | one word joins the last run or opens a new one: at most one run more, the last run has the word's speaker, the first run is kept |
| SpeakerRuns.StepWellFormed | app/services/transcription_service.py:170-181 | a step keeps every run non-empty and neighbouring speakers different |
| SpeakerRuns.Group | app/services/transcription_service.py:163-188 | no more runs than words, none iff no words, first and last runs carry the first and last words' speakers |
| SpeakerRuns.GroupWellFormed | app/services/transcription_service.py:166-182 | every segment has a word and adjacent segments have different speakers |
| SpeakerRuns.GroupSnoc | transcribe_audio.py:172-187 | grouping one more word is one more step |
| SpeakerRuns.StepSameSpeaker | transcribe_audio.py:186-187 | an equal label appends the word to the open run |
| SpeakerRuns.StepNewSpeaker | transcribe_audio.py:176-185 | a new label closes the open run and opens one holding the word |
| SpeakerRuns.GroupFirst | app/services/transcription_service.py:163-179 | the first word opens the first run |
| SpeakerRuns.GroupExtendSame | app/services/transcription_service.py:180-181 | reading a word by the open run's speaker extends that run |
| SpeakerRuns.GroupExtendNew | app/services/transcription_service.py:170-179 | reading a word by another speaker closes the open run and opens a new one |
| SpeakerRuns.SegmentsFlush | app/services/transcription_service.py:184-188 | flushing the open run appends its segment with the words joined by spaces |
| SpeakerRuns.Segments | app/services/transcription_service.py:172-175 | one segment per run, its speaker and its space-joined words |
| SpeakerRuns.ExpandGroup | app/services/transcription_service.py:166-181 | expanding the runs back into words gives exactly the input: nothing lost, added or reordered |
| SpeakerRuns.GroupExpand | transcribe_audio.py:172-188 | grouping the words of well-formed runs gives back those runs |
| SpeakerRuns.GroupUnique | app/services/transcription_service.py:166-188 | the grouping is the only well-formed run list that expands to the words |
| SpeakerRuns.GroupSpread | transcribe_audio.py:176-187 | a run of a new speaker is appended whole |
| SpeakerRuns.JoinRunTexts | app/services/transcription_service.py:184-188 | joining non-empty run texts with spaces equals joining all their words |
| SpeakerRuns.JoinedSegmentsAreJoinedWords | app/services/transcription_service.py:166-188 | space-joining one list's segment texts equals space-joining its words |
| SpeakerRuns.RunCount | transcribe_audio.py:176-185 | the number of segments is one more than the number of speaker changes |
| TranscriptionService.Tokens | app/services/transcription_service.py:166-168 | each word becomes (label, else tag, else "Unknown"; the word, else "") in order |
| TranscriptionService.WordOf | app/services/transcription_service.py:168 | the word, else "" (a helper of `Tokens`, which states it per word) |
| TranscriptionService.SpeakerOf | app/services/transcription_service.py:167 | the label, else the tag, else "Unknown" (a definition; `Tokens` states it per word) |
| TranscriptionService.ReadWords | app/services/transcription_service.py:159-162 | the words of the first alternative when there is one (a definition; `NothingToRead` states the empty cases) |
| TranscriptionService.ResultsRuns | app/services/transcription_service.py:158-189 | the runs of each result in order, grouped afresh per result (a definition; `ResultsRunsAppend`, `NoMergeAcrossResults` and `ResultSegmentsFaithful` state its properties) |
| TranscriptionService.BlobsRuns | app/services/transcription_service.py:150-189 | the runs of every ".json" object in order (a definition; `BlobsRunsAppend`, `JsonOnly` and `OnlyJsonObjectsRead` state its properties) |
| TranscriptionService.Render | app/services/transcription_service.py:191-203 | the sentinel, or the banner and one block per segment (a definition; `RenderNoResultsIff`, `BlockAt` and `RenderTranscription` state it) |
| TranscriptionService.Banner | app/services/transcription_service.py:196-198 | eighty '=', the title, eighty '=' and a blank line (a helper of `Render`; `BlockAt` places the blocks after it) |
| TranscriptionService.Block | app/services/transcription_service.py:200-202 | "Speaker <label>:", then the text and a blank line (a helper of `Render`; `BlockAt` states where each block sits) |
| TranscriptionService.OutputPrefix | app/services/transcription_service.py:145 | the folder URI without "gs://bucket/" (a definition; `OutputPrefixRoundTrip` states it) |
| TranscriptionService.FormattedTranscription | app/services/transcription_service.py:145-203 | what the formatter returns for a folder (a definition; `DownloadAndFormatTranscription` and `TranscriptNeverEmpty` state it) |
| TranscriptionService.Listed | app/services/transcription_service.py:146 | the listing returns exactly the objects under the prefix |
| TranscriptionService.ListedAppend | app/services/transcription_service.py:146 | the listing keeps the store's order: listing two runs of objects gives the two listings in turn |
| TranscriptionService.AppendWordSegments | app/services/transcription_service.py:162-188 | the word loop appends exactly the segments of the grouping of that word list |
| TranscriptionService.CollectSegments | app/services/transcription_service.py:148-189 | the nested loops collect the segments of every result of every object, in order |
| TranscriptionService.RenderTranscription | app/services/transcription_service.py:191-203 | the `+=` loop builds exactly the rendered text |
| TranscriptionService.DownloadAndFormatTranscription | app/services/transcription_service.py:145-203 | the formatter returns the rendering of the segments of the folder's objects |
| TranscriptionService.BlobsRunsAppend | app/services/transcription_service.py:150 | segments come in object order |
| TranscriptionService.ResultsRunsAppend | app/services/transcription_service.py:158 | segments come in result order |
| TranscriptionService.JsonOnly | app/services/transcription_service.py:151 | keeps exactly the objects whose name ends in ".json" |
| TranscriptionService.OnlyJsonObjectsRead | transcribe_audio.py:157 | objects not ending in ".json" contribute nothing |
| TranscriptionService.NothingToRead | app/services/transcription_service.py:157-162 | a result with no alternatives, no `words` or an empty `words` gives no segment |
| TranscriptionService.SingleWordResult | app/services/transcription_service.py:184-188 | a result with one word gives one segment of that word |
| TranscriptionService.NoMergeAcrossResults | transcribe_audio.py:168-170 | the same speaker in two consecutive results gives two segments, not one |
| TranscriptionService.ResultSegmentsFaithful | transcribe_audio.py:172-195 | a result's segments join back to its words, each has a word, neighbours differ in speaker, and there are no more segments than words |
| TranscriptionService.RenderNoResultsIff | app/services/transcription_service.py:191-193 | the output is "No transcription results found." exactly when there are no segments |
| TranscriptionService.TranscriptNeverEmpty | transcribe_audio.py:198-209 | the formatted text is never empty |
| TranscriptionService.BlockAt | transcribe_audio.py:201-209 | segment i is printed as its own "Speaker" block after the banner and the earlier blocks and before the later ones |
| TranscriptionService.FolderNameHasNoDoubleSlash | transcribe_audio.py:264-267 | the output folder name never holds "//" |
| TranscriptionService.AudioBlobName | app/services/transcription_service.py:246-248 | "audio-files/<timestamp>_<basename>" (a definition; `AudioBlobNameShape` states its property) |
| TranscriptionService.AudioBlobNameShape | app/services/transcription_service.py:247-248 | the uploaded object's name holds no "//" and ends with the audio file's base name |
| TranscriptionService.OutputFolderName | app/services/transcription_service.py:246-249 | "transcripts/<timestamp>_<basename up to its last '.'>" (a definition; `FolderNameHasNoDoubleSlash` states its property) |
| TranscriptionService.GcsUri | app/services/transcription_service.py:253 | "gs://<bucket>/<name>" (a definition; `OutputPrefixRoundTrip` states it) |
| TranscriptionService.LocalTranscriptPath | app/services/transcription_service.py:285 | the path up to its last '.' plus "_transcription.txt" (a definition; `LocalTranscriptBesideAudio` and `LocalTranscriptIsNewFile` state its properties) |
| TranscriptionService.OutputPrefixRoundTrip | app/services/transcription_service.py:253 | the listing prefix computed from the folder URI is the folder the recognizer wrote to |
| TranscriptionService.LocalTranscriptBesideAudio | transcribe_audio.py:293 | "dir/name.ext" is saved as "dir/name_transcription.txt" |
| TranscriptionService.LocalTranscriptIsNewFile | app/services/transcription_service.py:285 | the local transcript never has the audio's own path |
| TranscriptionService.Transcription | app/services/transcription_service.py:236-294 | checks in order file, bucket, project with their errors; a cloud failure is raised; on success the audio URI is "gs://<bucket>/audio-files/<timestamp>_<basename>", the output folder is "gs://<bucket>/transcripts/<timestamp>_<stem>", the transcript is the formatter's output for that folder and the local file is the path up to its last '.' plus "_transcription.txt" |
| TranscriptionService.TranscribeAudio | app/services/transcription_service.py:206-294 | step by step, the same result as the function, and a non-empty transcription |
| Disk.UnlinkError | app.py:338 | removal raises exactly when the path is missing or its removal fails |
| Disk.AfterUnlink | app/background/processor.py:85-89 | an attempted removal changes only that path, and leaves it only if it fails |
| Disk.AfterMove | app/background/processor.py:74 | after a move the target exists, the source is gone, nothing else changes |
| Disk.FileSystem.Unlink | app/routers/jobs.py:67 | returns the error and leaves the files as the functions `UnlinkError` and `AfterUnlink` say |
| Disk.FileSystem.Write | app/services/transcription_service.py:286-287 | writing creates the path |
| Disk.FileSystem.Move | app/background/processor.py:74 | a move of a missing source raises; otherwise the given fault or the move |
| JobStore.KeepUnlessTruthy | app/utils/job_utils.py:17-22 | a truthy value overwrites, None or "" keeps the old one |
| JobStore.Merge | app/utils/job_utils.py:14-24 | id, name, type and creation time unchanged; status and progress set; error, transcription and result file each take the given value when it is truthy and keep the old one otherwise; completion time stamped iff terminal |
| JobStore.Apply | app/utils/job_utils.py:14 | only the given record changes, and an unknown id changes nothing |
| JobStore.Replay | app/background/processor.py:32-57 | a sequence of updates to one job leaves every other record as it was |
| JobStore.MergeIdempotent | app/utils/job_utils.py:11-24 | the same update twice at the same time equals once |
| JobStore.ApplyIdempotent | app.py:93-106 | the same on the table |
| JobStore.ApplyUnknownId | app/utils/job_utils.py:14 | any number of updates to an unknown id leave the table unchanged |
| JobStore.NoTransitionCheck | app/utils/job_utils.py:15 | a finished job accepts a non-terminal status and keeps its completion time |
| JobStore.EmptyErrorKept | app/utils/job_utils.py:17-18 | a failure with an empty message keeps the previous error |
| JobStore.PlainUpdate | app/utils/job_utils.py:15-24 | an update without optional values changes only status, progress and perhaps the completion time |
| JobStore.ReplayEndsTerminal | app/utils/job_utils.py:23-24 | after a run ending in a terminal update the job has that status and is stamped |
| JobStore.JobTable.constructor | app/utils/job_utils.py:9 | the table starts empty |
| JobStore.JobTable.Values | app/routers/jobs.py:23 | the records in insertion order, one per id |
| JobStore.JobTable.UpdateJobStatus | app/utils/job_utils.py:11-24 | the table becomes the merge of the update; order kept |
| JobStore.JobTable.Put | app/routers/transcribe.py:55-66 | stores the record under its id; a new id goes to the end of the order |
| JobStore.JobTable.Delete | app/routers/jobs.py:72 | removes exactly that id from the map and the order |
| JobsRouter.GetJobStatus | app/routers/jobs.py:11-17 | the stored record for a known id, else 404 "Job not found" |
| JobsRouter.InsertDesc | app/routers/jobs.py:25 | insertion adds exactly the record |
| JobsRouter.SortDesc | app/routers/jobs.py:25 | the sort is a permutation |
| JobsRouter.InsertKeepsSorted | app/routers/jobs.py:25 | insertion keeps newest-first order |
| JobsRouter.SortIsSorted | app/routers/jobs.py:24-25 | the sort gives newest first |
| JobsRouter.SortIsStable | app.py:297 | records created at the same time keep their insertion order |
| JobsRouter.SliceTo | app/routers/jobs.py:26 | `[:limit]` is a prefix of Python's length, negative limits included |
| JobsRouter.ListJobs | app/routers/jobs.py:20-26 | total is the number of records; the page is newest first, drawn from the records, as long as Python's `[:limit]` makes it (negative limits included), holds no record older than one left off it, and keeps the insertion order of records created at the same time |
| JobsRouter.PageIsNewest | app/routers/jobs.py:25-26 | no record left off the page is newer than a record on it |
| JobsRouter.NewestFirst | app.py:292-298 | with a positive limit the first listed record is at least as new as any record |
| JobsRouter.DownloadTranscription | app/routers/jobs.py:29-51 | the checks in order (404, 400, 404, 404) and, when all pass, the result path, "<filename>_transcription.txt" and text/plain |
| JobsRouter.AfterResultUnlink | app/routers/jobs.py:62-69 | the files after the attempted removal of a job's result file, if it has one (a definition; `DeleteJob` and `DeleteJobUnguarded` state it) |
| JobsRouter.DeleteJob | app/routers/jobs.py:54-74 | 404 and nothing changes for an unknown id; otherwise the result file is removed if possible and exactly that record leaves the table |
| JobsRouter.DeleteJobUnguarded | app.py:326-343 | 404 and nothing changed (records, order, files) for an unknown id; a failing removal of the result file answers 500 and keeps the record; otherwise as the package's delete |
| TranscribeRouter.NewJob | app/routers/transcribe.py:55-66 | the new record is queued with the given name and type and no completion time, error, result or transcription |
| TranscribeRouter.UploadPath | app/routers/transcribe.py:39-40 | "uploads/<id><suffix>" (a definition; `UploadKeepsType` states its property) |
| TranscribeRouter.CreateTranscriptionJob | app/routers/transcribe.py:15-84 | unknown type gives 400 and a save error gives 500, both changing nothing; otherwise the upload is written, the record stored (a new id at the end of the insertion order) and the response is queued with the same id |
| TranscribeRouter.CreatedJobIsListed | app.py:251-262 | the created job can be looked up and is not yet downloadable |
| TranscribeRouter.UploadKeepsType | app/routers/transcribe.py:39-40 | the upload path keeps the original suffix and so the file type |
| TranscribeRouter.SuffixBelowDir | app.py:241-242 | the suffix of "dir/stem.ext" is ".ext" |
| Processor.ResolveSettings | app/background/processor.py:35-36 | a setting comes from the configuration when truthy, else from the environment; `ProcessTranscription` runs on the settings it resolves |
| Processor.TryUpdates | app/background/processor.py:32-57 | the try block's progress updates: "Analyzing file..." first; the route's message iff settings and type pass; "Transcribing with speaker diarization..." unless a video's extraction failed; all with status processing |
| Processor.RouteUpdate | app/background/processor.py:47-52 | the progress message of the video or the audio route (a helper of `TryUpdates`, which states when it is sent) |
| Processor.TryBlock | app/background/processor.py:31-75 | the try block's outcome: raised with the files and message, or moved (a definition; `TryBlockMoved`, `TryBlockFiles`, `TryBlockEarlyFailures` and `TryBlockLateFailures` state it) |
| Processor.ResultPath | app/background/processor.py:71-72 | "results/<id>_transcription.txt" (a helper of `TryBlock`; `TryBlockFiles`, `CompletedIff` and `DownloadAfterSuccess` state where the transcript ends up) |
| Processor.TranscribeAndMove | app/background/processor.py:59-75 | the transcriber's call and the move of its local transcript (a definition; `RunTranscribeAndMove` and `TryBlockLateFailures` state it) |
| Processor.Guarded | app/background/processor.py:21-109 | the try block, then `Finish` (a definition; `GuardedLast`, `CompletedIff`, `FailureReasons`, `ProcessedJob`, `UploadRemoved` and `CleanupNeverChangesOutcome` state it) |
| Processor.FailUnguarded | app.py:181-187 | the failed update, then the unguarded removal of the upload, whose error escapes (a definition; `FinishUnguardedEscapes` states it) |
| Processor.Unguarded | app.py:109-187 | the try block, then `FinishUnguarded` (a definition; `UnguardedAgrees`, `UnguardedCleanupFailsJob` and `UnguardedUploadErrorEscapes` state it) |
| Processor.Finish | app/background/processor.py:77-109 | the handler's last update is terminal and failed exactly when the try block raised; the upload is gone afterwards unless its removal fails, in which case it is where the try block left it |
| Processor.CleanupMoved | app.py:164-170 | the single-file server's cleanup after a move only removes files; without an error the upload is gone, and an error is a removal error |
| Processor.FinishUnguarded | app.py:164-187 | the single-file server's last update is terminal, and an error escapes only from a failed run whose upload was on disk and resisted removal |
| Processor.GuardedLast | app/background/processor.py:31-109 | a run's updates are the try block's, then failed with the raised message or completed with the transcription and the result path; after a raise the upload's removal is attempted |
| Processor.TryBlockEarlyFailures | app/background/processor.py:38-54 | the message raised for missing settings, for an unsupported format (with the suffix) and for a failed extraction, and that nothing on disk changes then |
| Processor.TryBlockLateFailures | app/background/processor.py:59-74 | the message raised for a missing audio file, a cloud failure and a failed move |
| Processor.FinishFiles | app/background/processor.py:77-89 | the cleanup touches only the upload and, after a completion, the extracted audio, which stays iff it is kept or its removal fails |
| Processor.FinishJob | app/background/processor.py:91-102 | the record ends with the final status and the completion time; after a move it holds the result path and a non-empty transcription, after a raise a non-empty message |
| Processor.FinishDownload | app/background/processor.py:70-98 | after a move the download endpoint serves the result path |
| Processor.FinishAgrees | app.py:160-187 | when neither the upload nor the moved audio resists removal, the single-file server's handler does what the package's does and nothing escapes |
| Processor.FinishUnguardedEscapes | app.py:181-187 | an upload on disk that resists removal makes the run fail, stays on disk, and its error escapes |
| Processor.RunTranscribeAndMove | app/background/processor.py:59-75 | the transcriber's call and the move, step by step, give the attempt and files of the function it is proved against |
| Processor.RunFinish | app/background/processor.py:77-109 | the cleanup and the final update reach the table and the files as `Finish` says |
| Processor.RemoveUnguarded | app.py:164-166 | the unguarded removals return the error and leave the files `CleanupMoved` says |
| Processor.RunFinishUnguarded | app.py:164-187 | the single-file server's cleanup and final update reach the table, the files and the escaping error as `FinishUnguarded` says |
| Processor.RunTryBlock | app/background/processor.py:31-75 | the try block's updates are applied to the table in order and the files end as the function it is proved against says |
| Processor.ProcessTranscription | app/background/processor.py:21-109 | with the settings resolved from the configuration and the environment, the table and the files end as the guarded run says |
| Processor.ProcessTranscriptionUnguarded | app.py:109-187 | with the settings read from the environment alone, the table, the files and the escaping error are as the unguarded run says |
| Processor.TryBlockMoved | app/background/processor.py:38-75 | the try block gets through iff settings, type, extraction, audio on disk, cloud and move all succeed; then the transcribed audio is the extracted track for video and the upload for audio |
| Processor.TryBlockFiles | app/background/processor.py:47-75 | the try block removes nothing but a file at the local transcript's path and leaves the result and the audio on disk |
| Processor.CompletedIff | app/background/processor.py:92-98 | the job ends completed exactly when everything succeeds, with the formatted transcription and the result path |
| Processor.FailureReasons | app/background/processor.py:38-75 | the failure message of each step: settings, unsupported format, extraction, missing audio, cloud, move; no extraction is attempted on the first two |
| Processor.ProcessedJob | app/background/processor.py:100-102 | the record ends terminal and stamped, with result path and transcription when completed and the error when failed |
| Processor.DownloadAfterSuccess | app/background/processor.py:70-75 | after a completed run the download endpoint serves the result path |
| Processor.UploadRemoved | app/background/processor.py:85-89 | the upload is gone after any run unless its removal fails |
| Processor.ExtractedAudioKeptOnFailure | app/background/processor.py:100-109 | a failed run leaves the extracted track on disk |
| Processor.ExtractedAudioOnSuccess | app/background/processor.py:78-82 | after success the extracted track remains iff it was to be kept or its removal failed |
| Processor.CleanupNeverChangesOutcome | app/background/processor.py:77-109 | removal failures never change the updates a job receives |
| Processor.UnguardedAgrees | app.py:119-155 | when no removal fails, the single-file server's run equals the package's and nothing escapes |
| Processor.UnguardedCleanupFailsJob | app.py:165-170 | a failing removal of the extracted track after success marks the job failed although the transcript is in the results directory |
| Processor.UnguardedUploadErrorEscapes | app.py:181-187 | a failing removal of the upload escapes the background task after the job is marked failed |
| Cli.ResolveConfig | main.py:212-226 | flag over environment; bucket checked first; a missing one exits with status 1 |
| Cli.ResolvedConfigPassesChecks | main.py:111-120 | once resolved, the transcriber never fails on bucket or project |
| Cli.TranscribeAndClean | main.py:111-139 | the result is the transcriber's |
| Cli.ProcessFile | main.py:59-139 | `process_file` as a function of its inputs (a definition; `ProcessFileOutcomes`, `ProcessFileSucceeds`, `OnlyExtractedAudioRemoved`, `InputNeverDeleted` and the lemmas below state it) |
| Cli.UnsupportedMessage | main.py:101-106 | the unsupported-format message with its lists of formats (a helper of `ProcessFile`; `ProcessFileOutcomes` states when it is raised) |
| Cli.RunProcessFile | main.py:59-139 | step by step, the result and files of the function it is proved against |
| Cli.RunTranscribeAndClean | main.py:123-139 | the try block and its handler, step by step |
| Cli.ProcessFileOutcomes | main.py:79-106 | missing file, failed extraction and unsupported format raise in that order without touching files |
| Cli.ProcessFileSucceeds | main.py:79-124 | a run succeeds iff the file exists, is video or audio, a video's extraction worked, both settings are set and the cloud call succeeds |
| Cli.OnlyExtractedAudioRemoved | main.py:59-139 | no file but the extracted track is ever removed |
| Cli.InputNeverDeleted | main.py:79-98 | the input file stays on disk |
| Cli.ExtractedAudioAfterSuccess | main.py:123-128 | after success the extracted track remains iff kept or its removal failed |
| Cli.ExtractedAudioAfterFailure | main.py:132-139 | after a failed transcription the extracted track is removed, whatever `keep_audio` says, unless its removal fails; the transcriber's error is re-raised |
| Cli.TranscriptWritten | main.py:111-120 | a successful run leaves the transcript beside the transcribed audio |

## Left out

- Google Cloud: the upload to the bucket, the batch recognition call, the listing and download of the result objects and the credential lookup. They are one outcome parameter: an error message, or the bucket's objects as already-parsed recognition results.
- JSON decoding: results are parsed values. A JSON `null` where the code expects a list or a string is not represented, and neither is a document that fails to parse.
- The audio extractor (FFmpeg) and the silence remover. The extractor is an outcome parameter: the path it wrote, or its error message. The silence remover is not part of this model.
- Concurrency: the background tasks run one at a time, against one table.
- The clock and `uuid4`: both are parameters. `created_at` is a natural number; the code's ISO-8601 strings of one format order the same way.
- Printing, `argparse`, `sys.exit` codes other than the configuration rule, the authentication probe and the usage checks of the standalone script `transcribe_audio.py`. The script's naming and formatting are the shared functions above.
- The HTTP framework, the static mount and CORS. Pydantic models beyond their fields. `save_upload_file` is represented only by its outcome, an optional error. A partially written upload after a save error is not modelled.
- `UPLOAD_DIR` and `RESULTS_DIR` are the fixed "uploads" and "results". The package reads both from the environment, which is not modelled.
- `lower` is ASCII lower-casing. Python lower-cases all of Unicode.
- `Path.suffix` follows CPython up to 3.13: a trailing '.' gives no suffix.
- File writes always succeed.
- A uuid collision would overwrite a record in place (`JobTable.Put` models that). Nothing else depends on it.
- `language_code`, `min_speakers` and `max_speakers` are passed to the recognizer only, so they are not parameters here.
- The root-level modules `services/transcription_service.py` and `services/audio_extractor.py`, which `main.py` (lines 14-15) and `app.py` (lines 21-22) import, are not part of this model. `Cli`, `Processor.Unguarded` and `Processor.ProcessTranscriptionUnguarded` use the modelled `app/services/transcription_service.py` `transcribe_audio` in place of the first; the extractor is an outcome parameter everywhere.

## Findings

| source | as written | input that shows it | evidently intended | confidence | as-written member | corrected member |
|---|---|---|---|---|---|---|
| app.py:165-170 | the success path removes the extracted audio and the upload without a guard, so a removal error jumps to the error handler | a video whose extracted track cannot be removed (permission error), with every other step succeeding and `keep_audio` false | cleanup is best-effort: the job ends completed, as in the package's processor | medium, not executed | Processor.UnguardedCleanupFailsJob | Processor.CleanupNeverChangesOutcome |
| app.py:335-341 | the result file is removed without a guard, so a removal error answers 500 and leaves the record in the table | a completed job whose result file cannot be removed | the record is deleted and the removal error swallowed, as in the package's router | medium, not executed | JobsRouter.DeleteJobUnguarded | JobsRouter.DeleteJob |
