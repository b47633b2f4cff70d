/**
 * Story acceptance in AI_youtuber.py: `create_story` asks a fresh ChatGPT
 * client for a story and splits the reply on `;` into two versions (display
 * text and a kana-only reading); `main` splits each version into lines,
 * drops the blank ones, and accepts the story only when both versions have
 * as many lines. A rejected story is asked for again, five times at most.
 */
module Story {
  import opened Wrappers
  import opened Text
  import ChatBot

  /** The marker between the two versions of the story. */
  const Delimiter: char := ';'
  /** The process exits once `retry_count` exceeds this. */
  const MaxRetries: nat := 4
  /**
   * A placeholder for the Japanese story request written out in
   * `create_story` (AI_youtuber.py); its wording plays no part in the model,
   * only that one request is sent.
   */
  const StoryPrompt: string := "story request: display version ; kana version"

  datatype StoryError =
    | NotTwoVersions(parts: nat)                  // the assertion in `create_story`
    | LineCountMismatch(display: nat, speak: nat) // the assertion in `main`

  /** The accepted story: display lines (for captions) and speakable lines (for the voice). */
  datatype StoryScript = StoryScript(display: seq<string>, speak: seq<string>)

  /**
   * The check in `create_story`: the reply is split on every `;` and must
   * give exactly two pieces, so it holds exactly one `;`. The `""` of a failed
   * request is one piece and is rejected.
   */
  function ParseReply(reply: string): (r: Result<(string, string), StoryError>)
    ensures r.Success? <==> Count(reply, Delimiter) == 1
    ensures r.Success? ==>
      && r.value.0 + [Delimiter] + r.value.1 == reply
      && Delimiter !in r.value.0 && Delimiter !in r.value.1
    ensures r.Failure? ==> r.error == NotTwoVersions(Count(reply, Delimiter) + 1)
  {
    var parts := Split(reply, Delimiter);
    if |parts| == 2 then
      assert Join(parts, Delimiter) == parts[0] + [Delimiter] + parts[1];
      Success((parts[0], parts[1]))
    else Failure(NotTwoVersions(|parts|))
  }

  /**
   * `[line for line in lines if line.strip()]`: exactly the lines with a
   * non-whitespace character.
   */
  function KeepNonBlank(lines: seq<string>): seq<string> {
    if lines == [] then []
    else (if IsBlank(lines[0]) then [] else [lines[0]]) + KeepNonBlank(lines[1..])
  }

  /** The filter keeps exactly the lines with a non-whitespace character and adds none. */
  lemma {:induction false} KeepNonBlankMembers(lines: seq<string>)
    ensures forall l :: l in KeepNonBlank(lines) <==> l in lines && !IsBlank(l)
    ensures |KeepNonBlank(lines)| <= |lines|
  {
    if lines != [] {
      KeepNonBlankMembers(lines[1..]);
      assert lines == [lines[0]] + lines[1..];
    }
  }

  /** The filter keeps the original order: it works piecewise on a concatenation. */
  lemma {:induction false} KeepNonBlankAppend(a: seq<string>, b: seq<string>)
    ensures KeepNonBlank(a + b) == KeepNonBlank(a) + KeepNonBlank(b)
  {
    if a == [] {
      assert a + b == b;
    } else {
      var head := if IsBlank(a[0]) then [] else [a[0]];
      assert KeepNonBlank(a + b) == head + KeepNonBlank(a[1..] + b) by {
        assert (a + b)[0] == a[0] && (a + b)[1..] == a[1..] + b;
      }
      KeepNonBlankAppend(a[1..], b);
      assert head + (KeepNonBlank(a[1..]) + KeepNonBlank(b)) == (head + KeepNonBlank(a[1..])) + KeepNonBlank(b);
    }
  }

  /** The filter removes something exactly when there is a blank line. */
  lemma {:induction false} KeepNonBlankUnchanged(lines: seq<string>)
    ensures KeepNonBlank(lines) == lines <==> forall k :: 0 <= k < |lines| ==> !IsBlank(lines[k])
  {
    if lines != [] {
      KeepNonBlankUnchanged(lines[1..]);
      var rest := KeepNonBlank(lines[1..]);
      if IsBlank(lines[0]) {
        KeepNonBlankMembers(lines[1..]);
        assert |KeepNonBlank(lines)| == |rest| <= |lines| - 1;
      } else {
        assert KeepNonBlank(lines) == [lines[0]] + rest;
        assert lines == [lines[0]] + lines[1..];
        assert (forall k :: 0 <= k < |lines| ==> !IsBlank(lines[k]))
           <==> (forall k :: 0 <= k < |lines| - 1 ==> !IsBlank(lines[1..][k]));
      }
    }
  }

  /** The lines of one version: split on newlines, blank lines dropped. */
  function TrackLines(track: string): seq<string> {
    KeepNonBlank(Split(track, NewLine))
  }

  /** The assertion in `main`: the two versions must have as many lines, zero included. */
  function CheckTracks(display: string, speak: string): (r: Result<StoryScript, StoryError>)
    ensures r.Success? ==> |r.value.display| == |r.value.speak|
    ensures r.Success? ==> forall k :: 0 <= k < |r.value.display| ==> !IsBlank(r.value.display[k]) && !IsBlank(r.value.speak[k])
    ensures r.Failure? ==> r.error.LineCountMismatch? && r.error.display != r.error.speak
  {
    var d, s := TrackLines(display), TrackLines(speak);
    if |d| == |s| then
      KeepNonBlankMembers(Split(display, NewLine));
      KeepNonBlankMembers(Split(speak, NewLine));
      assert forall k :: 0 <= k < |d| ==> d[k] in d && s[k] in s;
      Success(StoryScript(d, s))
    else Failure(LineCountMismatch(|d|, |s|))
  }

  /** One pass through the body of the retry loop, on the reply text. */
  function Attempt(reply: string): (r: Result<StoryScript, StoryError>)
    ensures r.Success? ==> Count(reply, Delimiter) == 1 && |r.value.display| == |r.value.speak|
  {
    match ParseReply(reply)
    case Failure(e) => Failure(e)
    case Success(versions) => CheckTracks(versions.0, versions.1)
  }

  /**
   * A reply made of two `;`-free versions is accepted exactly when their
   * non-blank line counts agree, and the story is then those lines.
   */
  lemma AttemptTwoVersions(display: string, speak: string)
    requires Delimiter !in display && Delimiter !in speak
    ensures Attempt(display + [Delimiter] + speak).Success?
      <==> |TrackLines(display)| == |TrackLines(speak)|
    ensures Attempt(display + [Delimiter] + speak).Success? ==>
      Attempt(display + [Delimiter] + speak).value == StoryScript(TrackLines(display), TrackLines(speak))
  {
    assert forall k :: 0 <= k < |[display, speak]| ==> Delimiter !in [display, speak][k];
    SplitJoin([display, speak], Delimiter);
    assert Join([display, speak], Delimiter) == display + [Delimiter] + speak;
  }

  /** A reply that is nothing but the delimiter gives two empty versions, which are accepted. */
  lemma EmptyStoryAccepted()
    ensures Attempt([Delimiter]) == Success(StoryScript([], []))
  {
    AttemptTwoVersions("", "");
    assert "" + [Delimiter] + "" == [Delimiter];
    assert Split("", NewLine) == [""];
    assert IsBlank("") && [""][1..] == [];
    assert TrackLines("") == [];
  }

  /** `create_story`, with the outcome of its one request as a parameter. */
  method CreateStory(response: Option<string>) returns (r: Result<(string, string), StoryError>)
    ensures r == ParseReply(ChatBot.ReplyText(response))
    ensures response.None? ==> r.Failure?
  {
    var gpt := new ChatBot.ChatGPT("", 1);
    var story, _ := gpt.SendMessage(StoryPrompt, None, response);
    r := ParseReply(story);
  }

  /** One pass through the body of the retry loop: request a story, split it, compare the line counts. */
  method TryStory(response: Option<string>) returns (checked: Result<StoryScript, StoryError>)
    ensures checked == Attempt(ChatBot.ReplyText(response))
    ensures response.None? ==> checked.Failure?
  {
    var versions := CreateStory(response);
    checked := if versions.Success? then CheckTracks(versions.value.0, versions.value.1)
               else Failure(versions.error);
  }

  /** `f` applied to every element of `s`, in order. */
  function Apply<A, B>(f: A -> B, s: seq<A>): (r: seq<B>)
    ensures |r| == |s|
  {
    if s == [] then [] else Apply(f, s[..|s| - 1]) + [f(s[|s| - 1])]
  }

  lemma {:induction false} ApplyAt<A, B>(f: A -> B, s: seq<A>, k: nat)
    requires k < |s|
    ensures Apply(f, s)[k] == f(s[k])
  {
    var front := s[..|s| - 1];
    if k < |front| {
      assert front[k] == s[k];
      ApplyAt(f, front, k);
    }
  }

  /** The verdict of the checks on each reply, in the order the requests were made. */
  function Verdicts(responses: seq<Option<string>>): seq<Result<StoryScript, StoryError>> {
    Apply((response: Option<string>) => Attempt(ChatBot.ReplyText(response)), responses)
  }

  lemma VerdictAt(responses: seq<Option<string>>, k: nat)
    requires k < |responses|
    ensures |Verdicts(responses)| == |responses|
    ensures Verdicts(responses)[k] == Attempt(ChatBot.ReplyText(responses[k]))
  {
    ApplyAt((response: Option<string>) => Attempt(ChatBot.ReplyText(response)), responses, k);
  }

  /**
   * What the retry loop does from attempt `from` on, given the verdict on
   * each reply: the first accepted story ends it after that attempt; after a
   * fifth rejection it gives up. The result is the story, if any, and the
   * number of attempts made.
   */
  function Retry(verdicts: seq<Result<StoryScript, StoryError>>, from: nat): (Option<StoryScript>, nat)
    requires from <= MaxRetries < |verdicts|
    decreases MaxRetries - from
  {
    match verdicts[from]
    case Success(story) => (Some(story), from + 1)
    case Failure(_) => if from == MaxRetries then (None, from + 1) else Retry(verdicts, from + 1)
  }

  /**
   * The retry loop ends after one to five attempts; every attempt but the
   * last was rejected; the last accepted the story returned, or it was the
   * fifth and was rejected too.
   */
  lemma {:induction false} RetryOutcome(verdicts: seq<Result<StoryScript, StoryError>>, from: nat)
    requires from <= MaxRetries < |verdicts|
    ensures var (story, attempts) := Retry(verdicts, from);
      && from + 1 <= attempts <= MaxRetries + 1
      && (forall k :: from <= k < attempts - 1 ==> verdicts[k].Failure?)
      && (story.Some? ==> verdicts[attempts - 1] == Success(story.value))
      && (story.None? ==> attempts == MaxRetries + 1 && verdicts[MaxRetries].Failure?)
    decreases MaxRetries - from
  {
    if verdicts[from].Failure? && from < MaxRetries {
      RetryOutcome(verdicts, from + 1);
    }
  }

  /**
   * The retry loop gives up exactly when all five attempts are rejected;
   * otherwise its story is the one some attempt accepted.
   */
  lemma GivesUpIffAllRejected(verdicts: seq<Result<StoryScript, StoryError>>)
    requires MaxRetries < |verdicts|
    ensures var (story, _) := Retry(verdicts, 0);
      && (story.None? <==> forall k :: 0 <= k <= MaxRetries ==> verdicts[k].Failure?)
      && (story.Some? ==> exists k :: 0 <= k <= MaxRetries && verdicts[k] == Success(story.value))
  {
    RetryOutcome(verdicts, 0);
    var (story, attempts) := Retry(verdicts, 0);
    if story.Some? {
      assert verdicts[attempts - 1] == Success(story.value);
    }
  }

  /**
   * The retry loop of `main`: attempt `k` sees the outcome `responses[k]`.
   * The first accepted story ends the loop; every rejection adds one to
   * `retry_count`, and the loop gives up (the process exits) when the count
   * exceeds four, so there are at most five attempts.
   */
  method AcquireStory(responses: seq<Option<string>>) returns (story: Option<StoryScript>, attempts: nat)
    requires |responses| == MaxRetries + 1
    ensures (story, attempts) == Retry(Verdicts(responses), 0)
  {
    ghost var verdicts := Verdicts(responses);
    var retryCount: nat := 0;
    while true
      invariant retryCount <= MaxRetries
      invariant Retry(verdicts, retryCount) == Retry(verdicts, 0)
      decreases MaxRetries - retryCount
    {
      var checked := TryStory(responses[retryCount]);
      VerdictAt(responses, retryCount);
      if checked.Success? {
        return Some(checked.value), retryCount + 1;
      }
      retryCount := retryCount + 1;
      if retryCount > MaxRetries {
        return None, retryCount;
      }
    }
  }
}
