/**
 * One day of the `main` loop of AI_youtuber.py: wait until the day after
 * the last recorded upload, acquire a story, voice its lines, make the
 * video, upload it, and record the day. The outside world (the clock, the
 * chat service, the speech engine, the video service) comes in as
 * parameters; the file that holds the recorded day is the `savedDate` field
 * of a `Scheduler`.
 */
module Pipeline {
  import opened Wrappers
  import opened Text
  import DayGate
  import Story
  import ChatBot
  import opened VoiceFiles
  import opened Timeline

  /** The fixed part of the upload's title; the story title goes between the last pair of brackets. */
  const TitlePrefix: string := "【睡眠導入】ずんだもんがささやき声で物語を読み聞かせるのだ【"
  const TitleSuffix: string := "】"

  /**
   * The upload's tags. The last one is written without the `f` prefix, so
   * it holds the placeholder text itself rather than the story title.
   */
  const Tags: seq<string> := [
    "語りのずんだ", "ずんだもん", "物語", "読み聞かせ", "ささやき声",
    "ささやき声で物語を読み聞かせるのだ", "ささやき声で物語を読み聞かせるのだ【{story_title}】"
  ]

  /** The upload's title for a story title. */
  function UploadTitle(storyTitle: string): (title: string)
    ensures |title| == |TitlePrefix| + |storyTitle| + |TitleSuffix|
    ensures title[..|TitlePrefix|] == TitlePrefix
    ensures title[|TitlePrefix|..|title| - |TitleSuffix|] == storyTitle
    ensures title[|title| - |TitleSuffix|..] == TitleSuffix
  {
    TitlePrefix + storyTitle + TitleSuffix
  }

  /** Different story titles give different upload titles. */
  lemma UploadTitleInjective(a: string, b: string)
    requires UploadTitle(a) == UploadTitle(b)
    ensures a == b
  {
    assert a == UploadTitle(a)[|TitlePrefix|..|UploadTitle(a)| - |TitleSuffix|];
  }

  /**
   * What `upload_video` does with the request: the service accepts it, it
   * fails with an HTTP error (which `upload_video` reports and swallows), or
   * some other exception escapes and ends the process.
   */
  datatype UploadOutcome = Accepted(videoId: string) | HttpFailure | Crashed

  /** Where a cycle that does not complete ends the process. */
  datatype Stage =
    | StoryRejected           // five stories in a row failed the checks
    | LineVoiceFailed(line: nat)  // speech synthesis raised for a story line
    | BracketVoiceFailed      // speech synthesis raised for the opening or the closing
    | UploadCrashed           // an exception other than an HTTP error escaped the upload

  /** What a cycle makes before the upload: the accepted story, its lines' voice lengths and the video. */
  datatype Production = Production(story: Story.StoryScript, voices: seq<Seconds>, video: Video)

  /** A completed cycle: what it made, and the title and tags the upload request carried. */
  datatype CycleOutcome =
    | Completed(made: Production, title: string, tags: seq<string>, upload: UploadOutcome)
    | Stopped(stage: Stage)

  /**
   * The loop of `main` that writes every line's text file and voice file
   * (lines 70-78). `synth(i)` is the length of the voice made for line `i`,
   * or `None` when `generate_voice` raised; the first such line ends the
   * process.
   */
  method SynthesizeLines(speak: seq<string>, synth: nat -> Option<Seconds>) returns (r: Result<seq<Seconds>, nat>)
    ensures r.Success? <==> forall i: nat :: i < |speak| ==> synth(i).Some?
    ensures r.Success? ==> |r.value| == |speak| && forall i :: 0 <= i < |speak| ==> r.value[i] == synth(i).value
    ensures r.Failure? ==> r.error < |speak| && synth(r.error).None? && forall i: nat :: i < r.error ==> synth(i).Some?
  {
    var voices: seq<Seconds> := [];
    var i := 0;
    while i < |speak|
      invariant 0 <= i <= |speak| && |voices| == i
      invariant forall j :: 0 <= j < i ==> synth(j).Some? && voices[j] == synth(j).value
    {
      var made := synth(i);
      if made.None? {
        return Failure(i);
      }
      voices := voices + [made.value];
      i := i + 1;
    }
    r := Success(voices);
  }

  /** `voices` are the lengths the speech engine gave for the story's lines, one per line. */
  predicate Voiced(story: Story.StoryScript, voices: seq<Seconds>, synth: nat -> Option<Seconds>) {
    && |voices| == |story.speak| == |story.display|
    && forall i :: 0 <= i < |voices| ==> synth(i) == Some(voices[i])
  }

  /** The speech engine gives a voice for every line of the story, for the opening and for the closing. */
  predicate Voiceable(story: Story.StoryScript, synth: nat -> Option<Seconds>, intro: Option<Seconds>, outro: Option<Seconds>) {
    && (forall i: nat :: i < |story.speak| ==> synth(i).Some?)
    && intro.Some? && outro.Some?
  }

  /** The line `line` is the first line of the story whose voice failed. */
  predicate FirstSilentLine(story: Story.StoryScript, synth: nat -> Option<Seconds>, line: nat) {
    && line < |story.speak| && synth(line).None?
    && forall i: nat :: i < line ==> synth(i).Some?
  }

  /** The story the retry loop keeps: the first one the checks accept within five attempts, if any. */
  function Chosen(responses: seq<Option<string>>): Option<Story.StoryScript>
    requires |responses| == Story.MaxRetries + 1
  {
    Story.Retry(Story.Verdicts(responses), 0).0
  }

  /**
   * `p` is what a cycle makes from these inputs: the story the retry loop
   * keeps, a voice for each of its lines, and the video assembled from them.
   */
  predicate MadeFrom(p: Production, responses: seq<Option<string>>, synth: nat -> Option<Seconds>,
                     intro: Option<Seconds>, outro: Option<Seconds>)
    requires |responses| == Story.MaxRetries + 1
  {
    && intro.Some? && outro.Some?
    && Chosen(responses) == Some(p.story)
    && Voiced(p.story, p.voices, synth)
    && p.video == Assemble(ReadLines(p.story.display), Listing(VoiceFolder(intro.value, p.voices, outro.value)))
  }

  /**
   * With at most 990 story lines, the video a cycle makes is titled with the
   * story's first display line as its text file reads back, so a `'\r'` in
   * that line reaches the title caption and the upload title as `'\n'`.
   */
  lemma MadeTitle(p: Production, responses: seq<Option<string>>, synth: nat -> Option<Seconds>,
                  intro: Option<Seconds>, outro: Option<Seconds>)
    requires |responses| == Story.MaxRetries + 1
    requires MadeFrom(p, responses, synth, intro, outro)
    requires |p.story.display| <= OutroStem - FirstLineStem
    ensures p.video.storyTitle == if |p.story.display| > 0 then ReadBack(p.story.display[0]) else IntroScript
  {
    StoryInOrder(ReadLines(p.story.display), p.voices, intro.value, outro.value);
  }

  /**
   * What follows the retry loop, for an accepted story: the voices of its
   * lines, then `create_movie`. It succeeds exactly when every voice can be
   * made; otherwise the first line whose voice fails stops the process, and
   * when all lines have their voice, a failed opening or closing does.
   */
  method Voice(story: Story.StoryScript, synth: nat -> Option<Seconds>, intro: Option<Seconds>, outro: Option<Seconds>)
    returns (r: Result<Production, Stage>)
    requires |story.display| == |story.speak|
    ensures r.Success? <==> Voiceable(story, synth, intro, outro)
    ensures r.Failure? ==> r.error.LineVoiceFailed? || r.error == BracketVoiceFailed
    ensures r.Failure? && r.error.LineVoiceFailed? ==> FirstSilentLine(story, synth, r.error.line)
    ensures r == Failure(BracketVoiceFailed) ==>
      (forall i: nat :: i < |story.speak| ==> synth(i).Some?) && (intro.None? || outro.None?)
    ensures r.Success? ==>
      && r.value.story == story && Voiced(story, r.value.voices, synth)
      && intro.Some? && outro.Some?
      && r.value.video == Assemble(ReadLines(story.display), Listing(VoiceFolder(intro.value, r.value.voices, outro.value)))
  {
    var voices := SynthesizeLines(story.speak, synth);
    if voices.Failure? {
      return Failure(LineVoiceFailed(voices.error));
    }
    assert Voiced(story, voices.value, synth);
    var video := CreateMovie(story.display, voices.value, intro, outro);
    if video.None? {
      return Failure(BracketVoiceFailed);
    }
    r := Success(Production(story, voices.value, video.value));
  }

  /**
   * The part of a cycle between the wait and the upload: the retry loop,
   * the voices of the lines, and `create_movie`. It gives up exactly when
   * all five attempts are rejected; it succeeds exactly when the first
   * accepted story and the opening and closing can all be voiced, and then
   * the video is the one assembled from that story.
   */
  method Produce(responses: seq<Option<string>>, synth: nat -> Option<Seconds>,
                 intro: Option<Seconds>, outro: Option<Seconds>)
    returns (r: Result<Production, Stage>)
    requires |responses| == Story.MaxRetries + 1
    ensures r == Failure(StoryRejected) <==>
      forall k :: 0 <= k <= Story.MaxRetries ==> Story.Verdicts(responses)[k].Failure?
    ensures r == Failure(StoryRejected) <==> Chosen(responses).None?
    ensures r.Success? <==> Chosen(responses).Some? && Voiceable(Chosen(responses).value, synth, intro, outro)
    ensures r.Failure? && r.error.LineVoiceFailed? ==>
      Chosen(responses).Some? && FirstSilentLine(Chosen(responses).value, synth, r.error.line)
    ensures r == Failure(BracketVoiceFailed) ==>
      && Chosen(responses).Some?
      && (forall i: nat :: i < |Chosen(responses).value.speak| ==> synth(i).Some?)
      && (intro.None? || outro.None?)
    ensures r.Failure? ==> !r.error.UploadCrashed?
    ensures r.Success? ==> MadeFrom(r.value, responses, synth, intro, outro)
  {
    var story, attempts := Story.AcquireStory(responses);
    Story.GivesUpIffAllRejected(Story.Verdicts(responses));
    if story.None? {
      return Failure(StoryRejected);
    }
    Story.RetryOutcome(Story.Verdicts(responses), 0);
    Story.VerdictAt(responses, attempts - 1);
    r := Voice(story.value, synth, intro, outro);
  }

  /** The process state that survives from one day to the next: the content of `date.pickle`, if any. */
  class Scheduler {
    var savedDate: Option<string>

    constructor(saved: Option<string>)
      ensures savedDate == saved
    {
      savedDate := saved;
    }

    /**
     * One pass of the `main` loop. `clock(t)` is today's `YYYYMMDD` at the
     * `t`-th reading of the waiting loop, `responses[k]` the outcome of the
     * `k`-th story request, `synth`, `intro` and `outro` the speech engine's
     * results, `upload` the video service's, and `finishDay` the day read
     * when the upload is recorded. The day is recorded exactly when the
     * cycle completes, which includes an upload that failed with an HTTP
     * error.
     */
    method RunCycle(clock: nat -> string, responses: seq<Option<string>>, synth: nat -> Option<Seconds>,
                    intro: Option<Seconds>, outro: Option<Seconds>, upload: UploadOutcome, finishDay: string)
      returns (outcome: CycleOutcome, polls: nat)
      requires |responses| == Story.MaxRetries + 1
      requires savedDate.Some? ==> exists t: nat :: !LexLe(clock(t), savedDate.value)
      modifies this
      ensures !DayGate.MustWait(old(savedDate), clock(polls))
      ensures forall t: nat :: t < polls ==> DayGate.MustWait(old(savedDate), clock(t))
      ensures savedDate == if outcome.Completed? then Some(finishDay) else old(savedDate)
      ensures outcome.Completed? <==>
        Chosen(responses).Some? && Voiceable(Chosen(responses).value, synth, intro, outro) && !upload.Crashed?
      ensures outcome == Stopped(StoryRejected) <==>
        forall k :: 0 <= k <= Story.MaxRetries ==> Story.Verdicts(responses)[k].Failure?
      ensures outcome.Stopped? && outcome.stage.LineVoiceFailed? ==>
        Chosen(responses).Some? && FirstSilentLine(Chosen(responses).value, synth, outcome.stage.line)
      ensures outcome == Stopped(BracketVoiceFailed) ==>
        && Chosen(responses).Some?
        && (forall i: nat :: i < |Chosen(responses).value.speak| ==> synth(i).Some?)
        && (intro.None? || outro.None?)
      ensures outcome == Stopped(UploadCrashed) <==>
        Chosen(responses).Some? && Voiceable(Chosen(responses).value, synth, intro, outro) && upload.Crashed?
      ensures outcome.Completed? ==>
        && MadeFrom(outcome.made, responses, synth, intro, outro)
        && outcome.title == UploadTitle(outcome.made.video.storyTitle)
        && outcome.tags == Tags
        && outcome.upload == upload
    {
      polls := DayGate.WaitForNextDay(savedDate, clock);
      var made := Produce(responses, synth, intro, outro);
      if made.Failure? {
        return Stopped(made.error), polls;
      }
      if upload.Crashed? {
        return Stopped(UploadCrashed), polls;
      }
      var title := UploadTitle(made.value.video.storyTitle);
      savedDate := Some(finishDay);
      outcome := Completed(made.value, title, Tags, upload);
    }
  }
}
