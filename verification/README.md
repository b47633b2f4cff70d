# AI_Youtuber: the daily production pipeline, modelled in Dafny

This project models the daily cycle of the AI_Youtuber channel ("語りのずんだ").

The cycle has these stages:

- It waits until the calendar day after the last recorded upload.
- It asks ChatGPT for a story in two versions: a display version and a kana-only reading. It accepts the story only when the two versions have as many non-blank lines, and it makes at most five requests in all.
- It synthesises one voice file per story line, plus an opening and a closing.
- It lays out one clip segment per voice file, with a backdrop, a background, the character, a caption and the voice.
- It concatenates the segments, uploads the video and records the day.

The model has three parts:

- The `Movie_maker` class is a Dafny class, `Movie.MovieMaker`. It holds a modelled moviepy clip: its length, its layers with their time windows, and its placed audio tracks.
- The `ChatGPT` class is `ChatBot.ChatGPT`. Its conversation history is a `seq` field.
- The script's functions and loops are methods proved against specification functions. The loops are `main`'s day gate, its retry loop, its voice loop, and `create_movie`.

Modules and files:

- `wrappers.dfy`: Option and Result.
- `text.dfy`: Python's `split`, `join`, `strip()` emptiness and string `<=`.
- `day_gate.dfy`: the recorded day.
- `chat_bot.dfy`: the history buffer.
- `story.dfy`: story acceptance and retry.
- `movie.dfy`: clips and `Movie_maker`.
- `voice_files.dfy`: the voice folder and its sorted listing.
- `timeline.dfy`: `split_text_by_length` and `create_movie`.
- `pipeline.dfy`: one cycle of `main`.

Durations are `real`. Two moviepy rules are part of the model:

- A composite lasts until the later of the clip's end and the new layer's end.
- Concatenation plays the second clip right after the first.

Where the intended behaviour and the code differ, the model follows the code:

- A reply that holds exactly one `;` is accepted even when both versions have no non-blank line (0 == 0). The video then has only the opening and the closing. Its title segment is the closing, and `story_title` shows the opening's script, because the caption variable keeps its first value.
- The reply is split on every `;`, not only on the first, so a reply is accepted only when it holds exactly one `;`.
- A story is attempted five times in all (`retry_count > 4`) before the process exits.
- An upload that fails with an HTTP error is reported and swallowed inside `upload_video`, so the day is still recorded. Only other exceptions stop the process before the record.
- The opening has three timed captions, and its second caption ends at 11 s whatever the voice. So the opening segment lasts `max(voice + 2.5, 11)`, not always `voice + 2.5`.
- Story line `i` is written to `{i+10}.wav` and the closing to `1000.wav`. From 991 lines on, the closing overwrites line 990's voice. With exactly 991 lines it still plays last; from 992 lines on it plays in the middle of the video.
- The last upload tag is not an f-string. It holds the placeholder `{story_title}` literally.

## Model

| member | source | states |
|---|---|---|
| Text.Split | AI_youtuber.py:131 | `str.split` with a one-character separator gives one piece more than there are separators, no piece holds the separator, and joining the pieces gives the string back |
| Text.SplitJoin | AI_youtuber.py:42-43 | splitting what was joined with a separator absent from every part gives the parts back |
| DayGate.FormatOrder | AI_youtuber.py:31-33 | for well-formed dates, the string test `date >= today` on `%Y%m%d` strings holds exactly when today is not later than the stored day in calendar order, and equal strings mean equal days |
| DayGate.RecordedDayBlocks | AI_youtuber.py:33 | once a day is recorded, the gate stays shut on that day and every earlier one |
| DayGate.LaterDayOpens | AI_youtuber.py:28-33 | without a date file, or on any later day, the cycle starts at once |
| DayGate.WaitForNextDay | AI_youtuber.py:28-34 | the waiting loop stops at the first clock reading for which the stored date is not `>=` today; every earlier reading had to wait; without a date file there is no wait |
| ChatBot.AfterCall | ChatGPT.py:59-74 | one call drops only the oldest entry, and only when the history is longer than `n_memorise`; a failed request adds nothing; a reply appends the plain user message and then the assistant reply |
| ChatBot.HistoryGrowth | ChatGPT.py:59-74 | `n_memorise` does not bound the history: after `k` answered calls it has grown by at least `k` and at most `2k` entries |
| ChatBot.ChatGPT.constructor | ChatGPT.py:11-15 | a new client's history is the one system entry holding the initial prompt |
| ChatBot.ChatGPT.SendMessage | ChatGPT.py:30-76 | the request carries the history before the trim plus the user entry, with the image when one is given; the new history is `AfterCall` of the old one; the return value is the reply, or `""` when the request raised |
| ChatBot.SystemPromptForgotten | ChatGPT.py:59-74 | with the default `n_memorise` of 1, two answered calls leave four entries and none of them is the system prompt |
| Story.ParseReply | AI_youtuber.py:131-133 | the reply is accepted exactly when it holds one `;`; the two versions hold no `;` and give the reply back around it; otherwise the error carries the number of pieces |
| Story.KeepNonBlankMembers | AI_youtuber.py:46-47 | the filter keeps exactly the lines with a non-whitespace character, and never adds lines |
| Story.KeepNonBlankAppend | AI_youtuber.py:46-47 | the filter works piecewise, so it keeps the lines' order |
| Story.KeepNonBlankUnchanged | AI_youtuber.py:46-47 | the filter changes the lines exactly when one of them is blank |
| Story.CheckTracks | AI_youtuber.py:42-49 | an accepted story has as many display lines as speakable lines, none of them blank; a rejection reports two different counts |
| Story.Attempt | AI_youtuber.py:39-49 | an accepted reply held exactly one `;` and gave equally long line lists |
| Story.AttemptTwoVersions | AI_youtuber.py:39-49 | a reply made of two `;`-free versions is accepted exactly when their non-blank line counts agree, and the story is then those lines |
| Story.EmptyStoryAccepted | AI_youtuber.py:42-49 | a reply that is only `;` passes both assertions with no lines at all |
| Story.CreateStory | AI_youtuber.py:98-134 | `create_story` parses the reply text of one request on a fresh client; a failed request (reply `""`) is rejected |
| Story.TryStory | AI_youtuber.py:39-49 | one pass of the retry loop's body gives the verdict `Attempt` on the reply text |
| Story.RetryOutcome | AI_youtuber.py:37-58 | the retry loop makes one to five attempts; all but the last were rejected; the last accepted the story returned, or it was the fifth and was rejected too |
| Story.GivesUpIffAllRejected | AI_youtuber.py:37-58 | the loop gives up exactly when all five attempts are rejected; otherwise its story is one that some attempt accepted |
| Story.AcquireStory | AI_youtuber.py:37-58 | the loop with `retry_count` returns the story and the number of attempts that `Retry` specifies for the verdicts on the replies |
| Movie.Blank | Movie_maker.py:52 | a new clip lasts the given length and is one backdrop layer over that whole length, with no audio; every layer ends within it |
| Movie.Stack | Movie_maker.py:95 | compositing puts the layer on top and keeps the other layers and the audio; the composite lasts until the later of the two ends; layers that ended within the clip still do |
| Movie.WithText | Movie_maker.py:67-95 | an empty text changes nothing; otherwise one caption is added on top, up to `end_time` or to the end of the clip |
| Movie.WithImage | Movie_maker.py:97-117 | one picture is added on top, up to `end_time` or to the end of the clip, and the audio is kept |
| Movie.WithVideo | Movie_maker.py:150-170 | one video layer is added on top, up to `end_time` or to the end of the clip; a file without sound keeps the tracks, and a file with sound adds its soundtrack at `start_time`, cut to the shorter of its length and the layer's window |
| Movie.WithRectangle | Movie_maker.py:172-190 | one rectangle is added on top, up to `end_time` or to the end of the clip |
| Movie.WithCircle | Movie_maker.py:192-225 | with an end time, one disc is added on top from `start_time` to `end_time` |
| Movie.WithAudio | Movie_maker.py:119-148 | the picture is unchanged; the earlier tracks are kept; the file is placed at `start_time`, cut to the shorter of its length and the window up to `end_time` (or the end of the clip) |
| Movie.ConcatCovers | Movie_maker.py:236-243 | concatenation keeps the first clip's layers and tracks in front, and keeps every layer within the clip |
| Movie.MovieMaker.constructor | Movie_maker.py:19-53 | a new maker holds a blank clip of the given length and records that length |
| Movie.MovieMaker.AddText | Movie_maker.py:67-95 | the clip becomes `WithText` of the old clip; `duration` is unchanged |
| Movie.MovieMaker.AddImage | Movie_maker.py:97-117 | the clip becomes `WithImage` of the old clip; `duration` is unchanged |
| Movie.MovieMaker.AddAudio | Movie_maker.py:119-148 | the clip becomes `WithAudio` of the old clip; `duration` is unchanged |
| Movie.MovieMaker.AddVideo | Movie_maker.py:150-170 | the clip becomes `WithVideo` of the old clip; `duration` is unchanged |
| Movie.MovieMaker.AddRectangle | Movie_maker.py:172-190 | the clip becomes `WithRectangle` of the old clip; `duration` is unchanged |
| Movie.MovieMaker.AddCircle | Movie_maker.py:192-225 | it raises exactly when the position is `"center"` (a string minus a number) or `end_time` is omitted (`None` minus a number), and then the clip is unchanged; otherwise the clip becomes `WithCircle` of the old one |
| Movie.MovieMaker.GetClip | Movie_maker.py:227-234 | returns the current clip |
| Movie.MovieMaker.ConcatenateClips | Movie_maker.py:236-243 | the other clip plays after this one; `duration` is left as it was |
| VoiceFiles.LineFolder | AI_youtuber.py:70-78 | story line `i` is the file with stem `i + 10` and holds line `i`'s voice; there are no other files |
| VoiceFiles.VoiceFolder | AI_youtuber.py:161-165 | after the opening and the closing are written, the folder holds stems 0 and 1000, and between 2 and lines + 2 files |
| VoiceFiles.FolderEntries | AI_youtuber.py:161-165 | stem 0 holds the opening, stem 1000 the closing (which overwrites any line there), and every other line stem its own line |
| VoiceFiles.SortedStems | AI_youtuber.py:168 | sorting by the number in the name gives the folder's stems, each once, in increasing order |
| VoiceFiles.SortedStemsUnique | AI_youtuber.py:168 | any increasing listing of the same stems is the sorted one |
| VoiceFiles.VoiceOrder | AI_youtuber.py:167-169 | with at most 990 lines, the sorted stems are 0, then 10 to 9 + lines in story order, then 1000 |
| VoiceFiles.VoiceCollision | AI_youtuber.py:165 | from 991 lines on, the folder has one file fewer than the segments meant, and stem 1000 holds the closing |
| VoiceFiles.CollisionStems | AI_youtuber.py:167-169 | from 991 lines on, the sorted stems are 0 and every line's stem, with 1000 among them |
| VoiceFiles.Listing | AI_youtuber.py:167-169 | the listing has one entry per file of the folder |
| VoiceFiles.ListingInOrder | AI_youtuber.py:161-169 | with at most 990 lines, the listing is the opening's file, every line's file with its voice in story order, then the closing's |
| VoiceFiles.ListingCollision | AI_youtuber.py:161-169 | from 991 lines on, the closing sits at position 991 in place of line 990, the listing ends with the last line's file, and every other line keeps its place |
| Timeline.Chunks | AI_youtuber.py:147-150 | the pieces make up the text, and there are none exactly when the text is empty |
| Timeline.ChunkSizes | AI_youtuber.py:148-149 | every piece is 1 to `length` characters long, and all but the last are exactly `length` |
| Timeline.PiecesFromChunks | AI_youtuber.py:148-149 | the slices taken every `length` characters from position `i` on are the pieces of the rest of the text |
| Timeline.SplitTextByLength | AI_youtuber.py:136-150 | a zero length raises; a negative length gives `""`; a positive one gives the pieces joined by newlines |
| Timeline.WrappedLines | AI_youtuber.py:136-150 | a wrapped caption of a non-empty line without newlines splits back into its pieces, each at most `length` long, and the pieces give the line back |
| Timeline.SceneryShape | AI_youtuber.py:188-189 | the scenery is the backdrop, the background and the character, all to the end of the clip, with no sound and no change of length |
| Timeline.FramedLength | AI_youtuber.py:186-209 | a segment before its voice lasts the voice plus the role's padding, or 11 s for a shorter opening; every layer ends within it; it is silent |
| Timeline.FramedLayers | AI_youtuber.py:186-209 | the layers are the scenery, then the opening's three captions at 0-3.5, 3.5-11 and 11 to the end, or the title in size 100, or the story line wrapped at 38 characters, or nothing for the closing |
| Timeline.SegmentShape | AI_youtuber.py:180-210 | a segment plays its whole voice from its start and lasts at least a second longer |
| Timeline.ChainDuration | AI_youtuber.py:213-214 | the concatenated video lasts exactly as long as its segments together |
| Timeline.ChainCovers | AI_youtuber.py:213-214 | concatenation keeps every layer within the video |
| Timeline.ChainAudio | AI_youtuber.py:213-214 | segment `k`'s track plays in the video from the sum of the lengths of the segments before it |
| Timeline.ChainSpacing | AI_youtuber.py:213-214 | the tracks play in segment order, each whole, separated by at least a second of silence |
| Timeline.AddScenery | AI_youtuber.py:188-189 | adding the background and the character gives `WithScenery` of the clip |
| Timeline.CaptionIgnored | AI_youtuber.py:200-203 | the closing does not depend on the caption variable |
| Timeline.SegmentAt | AI_youtuber.py:183-209 | the segment made from the caption variable at position `i` is the specified segment `i` |
| Timeline.FrameSegment | AI_youtuber.py:186-209 | one branch of the loop body, up to the voice, builds exactly the framed clip for its role, and a story line's caption comes back wrapped |
| Timeline.NewSegment | AI_youtuber.py:186-210 | one branch of the loop body builds exactly the specified segment for its role, and a story line's caption comes back wrapped |
| Timeline.MakeSegment | AI_youtuber.py:183-210 | the loop body at position `i`, from the caption variable as it stands there, builds segment `i` of the video |
| Timeline.BuildClips | AI_youtuber.py:180-210 | one distinct fresh maker per voice file holds that file's segment (`Segments` at its position); the story title is the caption variable at position 1 |
| Timeline.SegmentsAt | AI_youtuber.py:180-210 | the `k`-th segment is the one made from the `k`-th voice file in its role |
| Timeline.JoinClips | AI_youtuber.py:213-214 | the first maker ends up holding every segment chained in order |
| Timeline.ReadBack | AI_youtuber.py:184-185 | a line's text file, written in text mode and read back the same way, has the same length and every `'\r'` turned into `'\n'`, and no `'\r'` is left |
| Timeline.ReadBackUnchanged | AI_youtuber.py:184-185 | a line reads back as written exactly when it holds no `'\r'` |
| Timeline.ReadLines | AI_youtuber.py:180-185 | the story's text files as read back: one per line, each the line's `ReadBack` |
| Timeline.CreateMovie | AI_youtuber.py:154-214 | no video exactly when the opening's or the closing's voice failed; otherwise the video is `Assemble` of the lines as read back and of the sorted listing, which has 2 to lines + 2 files |
| Timeline.SegmentsShape | AI_youtuber.py:180-210 | every segment has its one voice track from its start, lasts at least a second longer, and keeps its layers within it |
| Timeline.Soundtrack | AI_youtuber.py:180-214 | the video plays the listed files in order, each whole, at least a second apart, and every layer ends within it |
| Timeline.StoryInOrder | AI_youtuber.py:161-214 | with at most 990 lines, the video plays the opening, every line in story order, then the closing; the title is the first line (the opening's script when there is none) |
| Timeline.ClosingOutOfPlace | AI_youtuber.py:165-210 | from 991 lines on, the closing plays as segment 991, under a story caption when more lines follow; the last segment has no caption and plays the file named for the last line, which with exactly 991 lines is the closing itself |
| Pipeline.MadeTitle | AI_youtuber.py:184-195 | with at most 990 lines, a cycle's video is titled with the first display line as read back from its file (the opening's script when there is no line) |
| Pipeline.UploadTitle | AI_youtuber.py:90 | the title is the fixed prefix, the story title and the closing bracket |
| Pipeline.UploadTitleInjective | AI_youtuber.py:90 | different story titles give different upload titles |
| Pipeline.SynthesizeLines | AI_youtuber.py:70-78 | the voice loop succeeds exactly when every line's synthesis does, giving each line's length in order; otherwise it stops at the first failed line |
| Pipeline.Voice | AI_youtuber.py:60-83 | after an accepted story it succeeds exactly when every line, the opening and the closing can be voiced; a line failure names the first line that cannot be voiced; a bracket failure comes after every line was voiced; a success keeps the story, voices every line and holds the assembled video |
| Pipeline.Produce | AI_youtuber.py:37-83 | the story is rejected exactly when all five verdicts fail; otherwise the story is the first accepted one (the loop breaks on it); the cycle succeeds exactly when that story's lines, the opening and the closing can all be voiced, and a failure names the first silent line or the silent bracket; a success holds the video assembled from that story |
| Pipeline.Scheduler.constructor | AI_youtuber.py:28-30 | the scheduler starts with the content of the date file, if there is one |
| Pipeline.Scheduler.RunCycle | AI_youtuber.py:24-96 | the cycle waits until the first reading that is not `<=` the stored date; it completes exactly when the first accepted story, the opening and the closing can all be voiced and the upload does not crash, and the day is recorded exactly then (an upload that fails with an HTTP error included); a stop names the stage: all five stories rejected, the first silent line, a silent bracket, or a crashed upload; a completed cycle uploads the video made from the first accepted story under `UploadTitle` of its story title, with the fixed tags |

## Left out

- Printing, toast notifications and progress bars: they are console output only.
- `Movie_maker.export_clip` and the rendering it does (codec, ffmpeg parameters, temporary files): the model ends at the clip that is exported.
- Fonts, colours, strokes, frame rate, frame size and resize arithmetic: they do not change lengths, order or timing.
- Speech synthesis (VoiceVox.py is not part of this model): each voice's length, or its failure, is a parameter.
- Reading the WAV files for their length: the lengths are parameters. Reading the line text files back is modelled only as the newline translation of text mode (`Timeline.ReadBack`); the encoding is not modelled.
- Timeline.CreateMovie: an exception while reading a WAV file (AI_youtuber.py:181), reading a line's text file (AI_youtuber.py:184) or exporting (AI_youtuber.py:217) ends the process before the upload with no day recorded; the model has no stage for these, since the files it reads are the ones the cycle has just written.
- Deleting the old files in the text and voice folders: the model starts from empty folders.
- The OpenAI request, the API key and model parameters: the reply, or the failure, is a parameter.
- `ChatGPT._convert_img2base64`: the image arrives already encoded.
- The OAuth flow, the request body, the description and the video service (Youtube_uploader.py is not part of this model): the upload's outcome is a parameter (accepted, HTTP error swallowed, other exception).
- The timestamp in `save_path`, and the clock's hours and minutes: only the `%Y%m%d` readings are modelled.
- The endless daily loop: one cycle is modelled, and the module-level `story_title` is the cycle's own video title, since each cycle assigns it before the upload reads it.
- The content of the story prompt: only the request is modelled, not its wording.
- ChatBot.ChatGPT.constructor: `n_memorise` is a natural number; a negative value, which Python would accept, is not modelled.
- Movie.MovieMaker.AddAudio: its requires excludes a window that ends before it starts (a negative `subclip` end in moviepy), which the source never asks for.
- DayGate.WaitForNextDay: its requires asks that some clock reading passes the stored date; the source waits forever when the stored string is `>=` every reading it will see (a far-future date, or a stored non-digit string such as `"a"`), and that endless wait is not modelled.
- Pipeline.Scheduler.RunCycle: its requires fixes exactly five story outcomes (the most the loop can consume) and that the clock eventually passes the stored date; a clock that never advances is not modelled.
- Pipeline.Scheduler.RunCycle: the day recorded after the upload (`finishDay`) is a parameter, not constrained to be a reading of the same clock.
