/**
 * `create_movie` and `split_text_by_length` of AI_youtuber.py: one clip
 * segment per voice file (the opening, the title, the story lines, the
 * closing), each a backdrop with the background and the character on it, a
 * caption and the voice, and the segments played back to back.
 */
module Timeline {
  import opened Wrappers
  import opened Text
  import opened Movie
  import opened VoiceFiles

  /** Characters per caption line for story lines. */
  const CaptionWidth: int := 38

  const BackgroundImage: string := "resources/image/background.png"
  const CharacterImage: string := "resources/image/立ち絵.png"
  const CharacterPosition: Position := At(1250, 400)
  const CharacterRatio: real := 1.2
  const CaptionSize: nat := 50
  const TitleSize: nat := 100

  /** The three captions of the opening, and when they change over. */
  const Welcome: string := "「語りのずんだ」へようこそなのだ。"
  const Introduction: string := "この動画では、僕があなたにいろんな物語を読み聞かせるのだ。"
  const Announcement: string := "今回の物語はこれなのだ。"
  const WelcomeEnd: real := 3.5
  const IntroductionEnd: real := 11.0

  /** What the opening says; it is also the first value of the caption variable. */
  const IntroScript: string := "\n    語りのずんだへようこそなのだ。この動画では、ぼくがあなたにいろんなものがたりを、よみきかせるのだ。こんかいのものがたりはこれなのだ。\n    "

  /** What a segment shows, by its position among the voice files. */
  datatype Role = Intro | Title | Narration | Outro

  /** The first file is the opening, the second the title, the last the closing; the title wins over the closing. */
  function RoleAt(i: nat, count: nat): Role
    requires i < count
  {
    if i == 0 then Intro else if i == 1 then Title else if i == count - 1 then Outro else Narration
  }

  /** Silence added after the voice of a segment. */
  function Padding(role: Role): real {
    match role
    case Intro => 2.5
    case Title => 1.5
    case Narration => 1.0
    case Outro => 1.5
  }

  // ---------------------------------------------------------------------------
  // split_text_by_length

  function Flatten(chunks: seq<string>): string {
    if chunks == [] then "" else chunks[0] + Flatten(chunks[1..])
  }

  /**
   * `text[i:i+width]` for `i` in `range(0, len(text), width)`: consecutive
   * pieces that make up the text.
   */
  function Chunks(text: string, width: nat): (r: seq<string>)
    requires width > 0
    ensures Flatten(r) == text
    ensures r == [] <==> text == []
    decreases |text|
  {
    if text == [] then []
    else if |text| <= width then [text]
    else [text[..width]] + Chunks(text[width..], width)
  }

  /** Every piece is between one and `width` long, and all but the last exactly `width`. */
  lemma {:induction false} ChunkSizes(text: string, width: nat)
    requires width > 0
    ensures var r := Chunks(text, width);
      && (forall k :: 0 <= k < |r| ==> 1 <= |r[k]| <= width)
      && (forall k :: 0 <= k < |r| - 1 ==> |r[k]| == width)
    decreases |text|
  {
    if |text| > width {
      ChunkSizes(text[width..], width);
      var r := Chunks(text, width);
      assert forall k :: 1 <= k < |r| ==> r[k] == Chunks(text[width..], width)[k - 1];
    }
  }

  /** A piece holds only characters of the text. */
  lemma {:induction false} ChunkCharacters(text: string, width: nat, c: char)
    requires width > 0 && c !in text
    ensures forall k :: 0 <= k < |Chunks(text, width)| ==> c !in Chunks(text, width)[k]
    decreases |text|
  {
    if |text| > width {
      ChunkCharacters(text[width..], width, c);
      var r := Chunks(text, width);
      assert text == text[..width] + text[width..];
      assert forall k :: 1 <= k < |r| ==> r[k] == Chunks(text[width..], width)[k - 1];
    }
  }

  /** The caption a story line is shown with: its pieces joined by newlines. */
  function Wrapped(text: string, width: nat): string
    requires width > 0
  {
    Join(Chunks(text, width), NewLine)
  }

  function Lower(a: int, b: int): int { if a <= b then a else b }

  /** The pieces from position `i` on: the one at `i`, then those after it. */
  lemma ChunksFrom(text: string, i: nat, width: nat)
    requires width > 0 && i < |text|
    ensures Chunks(text[i..], width)
      == [text[i..Lower(i + width, |text|)]] + Chunks(text[Lower(i + width, |text|)..], width)
  {
    if i + width < |text| {
      assert text[i..][width..] == text[i + width..];
      assert text[i..][..width] == text[i..i + width];
    } else {
      assert text[i..|text|] == text[i..];
      assert text[|text|..] == [];
    }
  }

  /** `[text[j:j+width] for j in range(i, len(text), width)]`. */
  function PiecesFrom(text: string, i: nat, width: nat): seq<string>
    requires width > 0
    decreases |text| - i
  {
    if i >= |text| then [] else [text[i..Lower(i + width, |text|)]] + PiecesFrom(text, i + width, width)
  }

  /** The pieces from position `i` on are the pieces of the rest of the text. */
  lemma {:induction false} PiecesFromChunks(text: string, i: nat, width: nat)
    requires width > 0 && i <= |text|
    ensures PiecesFrom(text, i, width) == Chunks(text[i..], width)
    decreases |text| - i
  {
    if i < |text| {
      ChunksFrom(text, i, width);
      if i + width <= |text| {
        PiecesFromChunks(text, i + width, width);
      } else {
        assert text[|text|..] == [];
      }
    }
  }

  /**
   * `split_text_by_length`. A zero step makes `range` raise a ValueError
   * (`None`); a negative step gives an empty range and so the empty string.
   */
  method SplitTextByLength(text: string, length: int) returns (r: Option<string>)
    ensures r.None? <==> length == 0
    ensures length < 0 ==> r == Some("")
    ensures length > 0 ==> r == Some(Wrapped(text, length))
  {
    if length == 0 {
      return None;
    }
    var lines: seq<string> := [];
    if length > 0 {
      var i := 0;
      while i < |text|
        invariant 0 <= i
        invariant lines + PiecesFrom(text, i, length) == PiecesFrom(text, 0, length)
        decreases |text| - i
      {
        var end := Lower(i + length, |text|);
        assert (lines + [text[i..end]]) + PiecesFrom(text, i + length, length) == lines + PiecesFrom(text, i, length);
        lines := lines + [text[i..end]];
        i := i + length;
      }
      PiecesFromChunks(text, 0, length);
      assert text[0..] == text && lines + [] == lines;
    }
    r := Some(Join(lines, NewLine));
  }

  /**
   * A caption made from a non-empty line without newlines splits back into
   * its pieces: every displayed line is at most `width` characters long, and
   * removing the inserted newlines gives the story line back.
   */
  lemma WrappedLines(text: string, width: nat)
    requires width > 0 && text != [] && NewLine !in text
    ensures Split(Wrapped(text, width), NewLine) == Chunks(text, width)
    ensures forall k :: 0 <= k < |Chunks(text, width)| ==> |Split(Wrapped(text, width), NewLine)[k]| <= width
    ensures Flatten(Split(Wrapped(text, width), NewLine)) == text
  {
    var pieces := Chunks(text, width);
    ChunkCharacters(text, width, NewLine);
    ChunkSizes(text, width);
    SplitJoin(pieces, NewLine);
  }

  // ---------------------------------------------------------------------------
  // One segment

  /** The background at full size and the character, both to the end of the clip. */
  function WithScenery(c: Clip): Clip {
    WithImage(WithImage(c, BackgroundImage, None, At(0, 0), 0.0, 1.0, 1.0),
              CharacterImage, None, CharacterPosition, 0.0, CharacterRatio, CharacterRatio)
  }

  /** The captions of a segment: the three timed captions of the opening, the title, or the wrapped story line. */
  function WithCaptions(role: Role, c: Clip, caption: string): Clip {
    match role
    case Intro =>
      WithText(WithText(WithText(c, Welcome, CaptionSize, Center, 0.0, Some(WelcomeEnd)),
                        Introduction, CaptionSize, Center, WelcomeEnd, Some(IntroductionEnd)),
               Announcement, CaptionSize, Center, IntroductionEnd, None)
    case Title => WithText(c, caption, TitleSize, Center, 0.0, None)
    case Narration => WithText(c, Wrapped(caption, CaptionWidth), CaptionSize, Center, 0.0, None)
    case Outro => c
  }

  /** A segment before its voice is added. */
  function Framed(role: Role, length: Seconds, caption: string): Clip {
    WithCaptions(role, WithScenery(Blank(length + Padding(role))), caption)
  }

  /** A segment: the framed clip with its voice from the start, cut to the end of the clip. */
  function SegmentClip(role: Role, voice: VoiceFile, caption: string): Clip {
    WithAudio(Framed(role, voice.length, caption), voice.path, voice.length, 0.0, None)
  }

  /**
   * How long a segment lasts. The opening's second caption ends at 11
   * seconds whatever the voice, so the opening lasts at least that long.
   */
  function SegmentLength(role: Role, length: Seconds): real {
    if role == Intro then Max(length + Padding(role), IntroductionEnd) else length + Padding(role)
  }

  /** The scenery on a backdrop: three layers to the end of the backdrop, and no sound. */
  lemma SceneryShape(lit: real)
    requires 0.0 <= lit
    ensures var c := WithScenery(Blank(lit));
      && c.duration == lit && Covers(c) && c.audio == []
      && c.layers == [Layer(Backdrop, 0.0, lit),
                      Layer(Picture(BackgroundImage, At(0, 0), 1.0, 1.0), 0.0, lit),
                      Layer(Picture(CharacterImage, CharacterPosition, CharacterRatio, CharacterRatio), 0.0, lit)]
  {
    var c := WithScenery(Blank(lit));
    assert Covers(WithImage(Blank(lit), BackgroundImage, None, At(0, 0), 0.0, 1.0, 1.0));
  }

  /** A wrapped non-empty line is not empty. */
  lemma WrappedNonEmpty(text: string, width: nat)
    requires width > 0 && text != ""
    ensures Wrapped(text, width) != ""
  {
    var pieces := Chunks(text, width);
    ChunkSizes(text, width);
    assert |pieces[0]| >= 1;
    if |pieces| > 1 {
      assert Wrapped(text, width) == pieces[0] + [NewLine] + Join(pieces[1..], NewLine);
    }
  }

  /** A framed segment lasts `SegmentLength`, keeps every layer within it, and is silent. */
  lemma FramedLength(role: Role, length: Seconds, caption: string)
    ensures var c := Framed(role, length, caption);
      c.duration == SegmentLength(role, length) && Covers(c) && c.audio == []
  {
    SceneryShape(length + Padding(role));
  }

  /**
   * The layers of a framed segment: the backdrop, the background and the
   * character first, all ending when the voice and its padding do; then the
   * three timed captions of the opening, or the title, or the wrapped story
   * line to the end of the clip; nothing more for the closing.
   */
  lemma FramedLayers(role: Role, length: Seconds, caption: string)
    ensures var c := Framed(role, length, caption);
      var lit := length + Padding(role);
      && |c.layers| >= 3
      && c.layers[0] == Layer(Backdrop, 0.0, lit)
      && c.layers[1] == Layer(Picture(BackgroundImage, At(0, 0), 1.0, 1.0), 0.0, lit)
      && c.layers[2] == Layer(Picture(CharacterImage, CharacterPosition, CharacterRatio, CharacterRatio), 0.0, lit)
      && (role == Outro ==> |c.layers| == 3)
      && (role == Title && caption != "" ==>
            c.layers[3..] == [Layer(Caption(caption, TitleSize, Center), 0.0, c.duration)])
      && (role == Narration && caption != "" ==>
            c.layers[3..] == [Layer(Caption(Wrapped(caption, CaptionWidth), CaptionSize, Center), 0.0, c.duration)])
      && (role == Intro ==>
            c.layers[3..] == [Layer(Caption(Welcome, CaptionSize, Center), 0.0, WelcomeEnd),
                              Layer(Caption(Introduction, CaptionSize, Center), WelcomeEnd, IntroductionEnd),
                              Layer(Caption(Announcement, CaptionSize, Center), IntroductionEnd, c.duration)])
  {
    SceneryShape(length + Padding(role));
    FramedLength(role, length, caption);
    match role {
      case Intro =>
      case Title =>
      case Narration =>
        if caption != "" {
          WrappedNonEmpty(caption, CaptionWidth);
        }
      case Outro =>
    }
  }

  /**
   * A segment plays its whole voice from its start, to the end without
   * cutting, and is otherwise the framed clip.
   */
  lemma SegmentShape(role: Role, voice: VoiceFile, caption: string)
    ensures var c := SegmentClip(role, voice, caption);
      && c.duration == SegmentLength(role, voice.length)
      && c.duration >= voice.length + 1.0
      && c.audio == [Placement(voice.path, 0.0, voice.length)]
      && c.layers == Framed(role, voice.length, caption).layers
      && Covers(c)
  {
    FramedLength(role, voice.length, caption);
  }

  // ---------------------------------------------------------------------------
  // The segments back to back

  /** `clips[0]` after each of the other clips has been concatenated to it, in order. */
  function Chain(segs: seq<Clip>): Clip
    requires |segs| >= 1
    decreases |segs|
  {
    if |segs| == 1 then segs[0] else Concat(Chain(segs[..|segs| - 1]), segs[|segs| - 1])
  }

  function TotalDuration(segs: seq<Clip>): real
    decreases |segs|
  {
    if segs == [] then 0.0 else TotalDuration(segs[..|segs| - 1]) + segs[|segs| - 1].duration
  }

  /** The chained clip lasts as long as its segments together. */
  lemma {:induction false} ChainDuration(segs: seq<Clip>)
    requires |segs| >= 1
    ensures Chain(segs).duration == TotalDuration(segs)
    decreases |segs|
  {
    if |segs| > 1 {
      ChainDuration(segs[..|segs| - 1]);
    } else {
      assert segs[..0] == [];
    }
  }

  /** Every layer of the chained clip ends within it when that holds for every segment. */
  lemma {:induction false} ChainCovers(segs: seq<Clip>)
    requires |segs| >= 1
    requires forall k :: 0 <= k < |segs| ==> Covers(segs[k])
    ensures Covers(Chain(segs))
    decreases |segs|
  {
    if |segs| > 1 {
      ChainCovers(segs[..|segs| - 1]);
      ConcatCovers(Chain(segs[..|segs| - 1]), segs[|segs| - 1]);
    }
  }

  /**
   * When every segment has one track starting at its beginning, the chained
   * clip plays those tracks in segment order, each from the moment its
   * segment begins: the sum of the lengths of the segments before it.
   */
  lemma {:induction false} ChainAudio(segs: seq<Clip>)
    requires |segs| >= 1
    requires forall k :: 0 <= k < |segs| ==> |segs[k].audio| == 1 && segs[k].audio[0].start == 0.0
    ensures |Chain(segs).audio| == |segs|
    ensures forall k :: 0 <= k < |segs| ==>
      Chain(segs).audio[k] == Placement(segs[k].audio[0].source, TotalDuration(segs[..k]), segs[k].audio[0].length)
    decreases |segs|
  {
    if |segs| == 1 {
      assert segs[..0] == [];
    } else {
      var last := |segs| - 1;
      var front := segs[..last];
      ChainAudio(front);
      ChainDuration(front);
      var r := Chain(segs);
      forall k | 0 <= k < |segs|
        ensures r.audio[k] == Placement(segs[k].audio[0].source, TotalDuration(segs[..k]), segs[k].audio[0].length)
      {
        if k < last {
          assert front[..k] == segs[..k];
          assert r.audio[k] == Chain(front).audio[k];
        } else {
          assert segs[..k] == front;
          assert r.audio[k] == ShiftAudio(segs[last].audio, Chain(front).duration)[0];
        }
      }
    }
  }

  // ---------------------------------------------------------------------------
  // create_movie

  /** The finished video: its clip, and `story_title` as `create_movie` leaves it. */
  datatype Video = Video(clip: Clip, storyTitle: string)

  /**
   * The caption text of the segment at position `i`. The variable `text`
   * starts as the opening's script and is overwritten with story line
   * `i - 1` only between the first and the last file, so with no story line
   * the title segment shows the opening's script.
   */
  function CaptionAt(texts: seq<string>, count: nat, i: nat): string
    requires i < count <= |texts| + 2
  {
    if 0 < i < count - 1 then texts[i - 1] else IntroScript
  }

  /** The segment of the voice file at position `i` of the listing. */
  function SegmentOf(texts: seq<string>, files: seq<VoiceFile>, i: nat): Clip
    requires i < |files| <= |texts| + 2
  {
    SegmentClip(RoleAt(i, |files|), files[i], CaptionAt(texts, |files|, i))
  }

  /** `[f(0), ..., f(n - 1)]`. */
  function Tabulate<T>(f: nat --> T, n: nat): (r: seq<T>)
    requires forall i: nat :: i < n ==> f.requires(i)
    ensures |r| == n
  {
    if n == 0 then [] else Tabulate(f, n - 1) + [f(n - 1)]
  }

  lemma {:induction false} TabulateAt<T>(f: nat --> T, n: nat, k: nat)
    requires forall i: nat :: i < n ==> f.requires(i)
    requires k < n
    ensures Tabulate(f, n)[k] == f(k)
  {
    if k < n - 1 {
      TabulateAt(f, n - 1, k);
    }
  }

  /** The segment of every voice file, in listing order. */
  function Segments(texts: seq<string>, files: seq<VoiceFile>): (segs: seq<Clip>)
    requires |files| <= |texts| + 2
    ensures |segs| == |files|
  {
    Tabulate((i: nat) requires i < |files| => SegmentOf(texts, files, i), |files|)
  }

  /** The `k`-th segment is the one made from the `k`-th voice file. */
  lemma SegmentsAt(texts: seq<string>, files: seq<VoiceFile>, k: nat)
    requires k < |files| <= |texts| + 2
    ensures Segments(texts, files)[k] == SegmentOf(texts, files, k)
  {
    TabulateAt((i: nat) requires i < |files| => SegmentOf(texts, files, i), |files|, k);
  }

  function Assemble(texts: seq<string>, files: seq<VoiceFile>): Video
    requires 1 <= |files| <= |texts| + 2
  {
    Video(Chain(Segments(texts, files)), if |files| > 1 then CaptionAt(texts, |files|, 1) else "")
  }

  /** Background and character, as every branch of `create_movie` adds them. */
  method AddScenery(m: MovieMaker)
    modifies m
    ensures m.clip == WithScenery(old(m.clip)) && m.duration == old(m.duration)
  {
    m.AddImage(BackgroundImage, None, At(0, 0), 0.0, 1.0, 1.0);
    m.AddImage(CharacterImage, None, CharacterPosition, 0.0, CharacterRatio, CharacterRatio);
  }

  /** The closing shows no caption, so its segment does not depend on the caption variable. */
  lemma CaptionIgnored(voice: VoiceFile, a: string, b: string)
    ensures SegmentClip(Outro, voice, a) == SegmentClip(Outro, voice, b)
  {
  }

  /** The segment made at position `i` from the caption variable is the `i`-th of `Segments`. */
  lemma SegmentAt(texts: seq<string>, files: seq<VoiceFile>, i: nat, text: string)
    requires i < |files| <= |texts| + 2
    requires RoleAt(i, |files|) != Outro ==> text == CaptionAt(texts, |files|, i)
    ensures SegmentClip(RoleAt(i, |files|), files[i], text) == SegmentOf(texts, files, i)
  {
    if RoleAt(i, |files|) == Outro {
      CaptionIgnored(files[i], text, CaptionAt(texts, |files|, i));
    }
  }

  /**
   * The role's branch of the loop body of `create_movie` up to the voice: a
   * new clip of the voice's length plus the role's padding, the scenery and
   * the captions. `shown` is the caption a story line is shown with, which
   * `create_movie` stores back into its caption variable.
   */
  method FrameSegment(role: Role, length: Seconds, text: string) returns (m: MovieMaker, shown: string)
    ensures fresh(m)
    ensures m.clip == Framed(role, length, text)
    ensures role == Narration ==> shown == Wrapped(text, CaptionWidth)
  {
    shown := text;
    m := new MovieMaker(length + Padding(role));
    AddScenery(m);
    ghost var base := m.clip;
    match role {
      case Intro =>
        m.AddText(Welcome, CaptionSize, Center, 0.0, Some(WelcomeEnd));
        m.AddText(Introduction, CaptionSize, Center, WelcomeEnd, Some(IntroductionEnd));
        m.AddText(Announcement, CaptionSize, Center, IntroductionEnd, None);
      case Title =>
        m.AddText(text, TitleSize, Center, 0.0, None);
      case Outro =>
      case Narration =>
        var wrapped := SplitTextByLength(text, CaptionWidth);
        shown := wrapped.value;
        m.AddText(shown, CaptionSize, Center, 0.0, None);
    }
    assert m.clip == WithCaptions(role, base, text);
  }

  /** One branch of the loop body of `create_movie`: the framed clip, then the voice from the start. */
  method NewSegment(role: Role, voice: VoiceFile, text: string) returns (m: MovieMaker, shown: string)
    ensures fresh(m)
    ensures m.clip == SegmentClip(role, voice, text)
    ensures role == Narration ==> shown == Wrapped(text, CaptionWidth)
  {
    m, shown := FrameSegment(role, voice.length, text);
    FramedLength(role, voice.length, text);
    m.AddAudio(voice.path, voice.length, 0.0, None);
  }

  /** The loop body of `create_movie` at position `i`, with the caption variable as it stands. */
  method MakeSegment(texts: seq<string>, files: seq<VoiceFile>, i: nat, text: string) returns (m: MovieMaker, shown: string)
    requires i < |files| <= |texts| + 2
    requires RoleAt(i, |files|) != Outro ==> text == CaptionAt(texts, |files|, i)
    ensures fresh(m) && m.clip == Segments(texts, files)[i]
    ensures RoleAt(i, |files|) == Narration ==> shown == Wrapped(text, CaptionWidth)
  {
    m, shown := NewSegment(RoleAt(i, |files|), files[i], text);
    SegmentAt(texts, files, i, text);
    SegmentsAt(texts, files, i);
  }

  /**
   * The loop of `create_movie` that makes one clip per voice file (lines
   * 180-210): the caption variable `text` is overwritten with story line
   * `i - 1` between the first and the last file, the title segment stores it
   * as the story title, and a story line's segment stores its wrapped form
   * back.
   */
  method BuildClips(texts: seq<string>, files: seq<VoiceFile>) returns (clips: seq<MovieMaker>, storyTitle: string)
    requires 2 <= |files| <= |texts| + 2
    ensures |clips| == |files|
    ensures forall k :: 0 <= k < |files| ==> fresh(clips[k]) && clips[k].clip == Segments(texts, files)[k]
    ensures forall j, k :: 0 <= j < k < |files| ==> clips[j] != clips[k]
    ensures storyTitle == CaptionAt(texts, |files|, 1)
  {
    var count := |files|;
    var text := IntroScript;
    storyTitle := "";
    clips := [];
    ghost var segs := Segments(texts, files);
    var i := 0;
    while i < count
      invariant 0 <= i <= count && |clips| == i
      invariant i <= 1 ==> text == IntroScript
      invariant i >= 2 ==> storyTitle == CaptionAt(texts, count, 1)
      invariant forall k :: 0 <= k < i ==> fresh(clips[k])
      invariant forall k :: 0 <= k < i ==> clips[k].clip == segs[k]
      invariant forall j, k :: 0 <= j < k < i ==> clips[j] != clips[k]
    {
      if 0 < i < count - 1 {
        text := texts[i - 1];
      }
      if i == 1 {
        storyTitle := text;
      }
      var m, shown := MakeSegment(texts, files, i, text);
      if RoleAt(i, count) == Narration {
        text := shown;
      }
      clips := clips + [m];
      i := i + 1;
    }
  }

  /** The loop of `create_movie` that concatenates every other clip to the first, in order (lines 213-214). */
  method JoinClips(clips: seq<MovieMaker>, ghost segs: seq<Clip>)
    requires 1 <= |clips| == |segs|
    requires forall k :: 0 <= k < |clips| ==> clips[k].clip == segs[k]
    requires forall j, k :: 0 <= j < k < |clips| ==> clips[j] != clips[k]
    modifies clips[0]
    ensures clips[0].clip == Chain(segs)
  {
    var i := 1;
    while i < |clips|
      invariant 1 <= i <= |clips|
      invariant clips[0].clip == Chain(segs[..i])
      invariant forall k :: 1 <= k < |clips| ==> clips[k].clip == segs[k]
    {
      var next := clips[i].GetClip();
      assert Chain(segs[..i + 1]) == Concat(Chain(segs[..i]), next) by {
        assert segs[..i + 1][..i] == segs[..i];
      }
      clips[0].ConcatenateClips(next);
      i := i + 1;
    }
    assert segs[..|clips|] == segs;
  }

  /**
   * A story line as `create_movie` reads its text file back. The file is
   * read in text mode, whose universal newlines turn every `'\r'` into a
   * `'\n'`; a story line holds no `'\n'` of its own, having been split on it.
   */
  function ReadBack(line: string): (r: string)
    ensures |r| == |line|
    ensures forall k :: 0 <= k < |line| ==> r[k] == if line[k] == '\r' then NewLine else line[k]
    ensures '\r' !in r
  {
    if line == [] then [] else [if line[0] == '\r' then NewLine else line[0]] + ReadBack(line[1..])
  }

  /** A line comes back as written exactly when it holds no `'\r'`. */
  lemma ReadBackUnchanged(line: string)
    ensures ReadBack(line) == line <==> '\r' !in line
  {
    if '\r' in line {
      var k :| 0 <= k < |line| && line[k] == '\r';
      assert ReadBack(line)[k] != line[k];
    }
  }

  /** The text files of the story lines, each as read back. */
  function ReadLines(lines: seq<string>): (r: seq<string>)
    ensures |r| == |lines|
    ensures forall k :: 0 <= k < |lines| ==> r[k] == ReadBack(lines[k])
  {
    if lines == [] then [] else [ReadBack(lines[0])] + ReadLines(lines[1..])
  }

  /**
   * `create_movie`, up to the export. `voices` are the lengths of the story
   * lines' voice files and `written` the lines `main` wrote to their text
   * files, which are read back with `ReadLines`; `intro` and `outro` are the
   * lengths of the opening's and the closing's voices, or `None` when
   * synthesising one of them raised (the process then stops and no video is
   * made).
   */
  method CreateMovie(written: seq<string>, voices: seq<Seconds>, intro: Option<Seconds>, outro: Option<Seconds>)
    returns (video: Option<Video>)
    requires |written| == |voices|
    ensures video.None? <==> intro.None? || outro.None?
    ensures video.Some? ==>
      var files := Listing(VoiceFolder(intro.value, voices, outro.value));
      2 <= |files| <= |written| + 2 && video.value == Assemble(ReadLines(written), files)
  {
    if intro.None? || outro.None? {
      return None;
    }
    var texts := ReadLines(written);
    var files := Listing(VoiceFolder(intro.value, voices, outro.value));
    var clips, storyTitle := BuildClips(texts, files);
    JoinClips(clips, Segments(texts, files));
    var whole := clips[0].GetClip();
    video := Some(Video(whole, storyTitle));
  }

  /** The `k`-th segment plays the `k`-th voice file, whole, from its start. */
  lemma SegmentVoice(texts: seq<string>, files: seq<VoiceFile>, k: nat)
    requires k < |files| <= |texts| + 2
    ensures Segments(texts, files)[k].audio == [Placement(files[k].path, 0.0, files[k].length)]
  {
    SegmentsAt(texts, files, k);
    SegmentShape(RoleAt(k, |files|), files[k], CaptionAt(texts, |files|, k));
  }

  /** Every segment has its one voice track from its start, ends after it by at least a second, and keeps its layers within it. */
  lemma SegmentsShape(texts: seq<string>, files: seq<VoiceFile>)
    requires |files| <= |texts| + 2
    ensures var segs := Segments(texts, files);
      forall k :: 0 <= k < |segs| ==>
        && segs[k].audio == [Placement(files[k].path, 0.0, files[k].length)]
        && segs[k].duration >= files[k].length + 1.0
        && Covers(segs[k])
  {
    var segs := Segments(texts, files);
    forall k | 0 <= k < |segs|
      ensures segs[k].audio == [Placement(files[k].path, 0.0, files[k].length)]
      ensures segs[k].duration >= files[k].length + 1.0
      ensures Covers(segs[k])
    {
      SegmentsAt(texts, files, k);
      SegmentShape(RoleAt(k, |files|), files[k], CaptionAt(texts, |files|, k));
    }
  }

  /**
   * Chained segments that each have one track from their start and last at
   * least a second longer than it play the tracks in order, each whole, and
   * separated by at least a second of silence.
   */
  lemma {:induction false} ChainSpacing(segs: seq<Clip>)
    requires |segs| >= 1
    requires forall k :: 0 <= k < |segs| ==>
      |segs[k].audio| == 1 && segs[k].audio[0].start == 0.0 && segs[k].duration >= segs[k].audio[0].length + 1.0
    ensures var a := Chain(segs).audio;
      && |a| == |segs|
      && (forall k :: 0 <= k < |segs| ==> a[k].source == segs[k].audio[0].source && a[k].length == segs[k].audio[0].length)
      && a[0].start == 0.0
      && (forall k :: 0 <= k < |segs| - 1 ==> a[k].start + a[k].length + 1.0 <= a[k + 1].start)
      && Chain(segs).duration >= a[|a| - 1].start + a[|a| - 1].length + 1.0
  {
    ChainAudio(segs);
    ChainDuration(segs);
    var a := Chain(segs).audio;
    assert segs[..0] == [];
    forall k | 0 <= k < |segs| - 1
      ensures a[k].start + a[k].length + 1.0 <= a[k + 1].start
    {
      assert segs[..k + 1][..k] == segs[..k];
    }
    var last := |segs| - 1;
    assert segs[..last + 1] == segs && segs[..last + 1][..last] == segs[..last];
  }

  /**
   * The soundtrack of a video made from the listing: the voice files in
   * listing order, each whole, each separated from the next by at least a
   * second of silence; and every layer ends within the video.
   */
  lemma Soundtrack(texts: seq<string>, files: seq<VoiceFile>)
    requires 1 <= |files| <= |texts| + 2
    ensures var c := Assemble(texts, files).clip;
      && |c.audio| == |files|
      && (forall k :: 0 <= k < |files| ==> c.audio[k].source == files[k].path && c.audio[k].length == files[k].length)
      && c.audio[0].start == 0.0
      && (forall k :: 0 <= k < |files| - 1 ==> c.audio[k].start + c.audio[k].length + 1.0 <= c.audio[k + 1].start)
      && c.duration >= c.audio[|files| - 1].start + c.audio[|files| - 1].length + 1.0
      && Covers(c)
  {
    var segs := Segments(texts, files);
    SegmentsShape(texts, files);
    ChainSpacing(segs);
    ChainCovers(segs);
  }

  /**
   * With at most 990 story lines, the video plays the opening's voice, then
   * every story line's voice in story order, then the closing's, and its
   * title is the first story line (the opening's script when there is no
   * story line).
   */
  lemma StoryInOrder(texts: seq<string>, voices: seq<Seconds>, intro: Seconds, outro: Seconds)
    requires |texts| == |voices| <= OutroStem - FirstLineStem
    ensures |Listing(VoiceFolder(intro, voices, outro))| == |voices| + 2
    ensures var a := Assemble(texts, Listing(VoiceFolder(intro, voices, outro))).clip.audio;
      && |a| == |voices| + 2
      && a[0] == Placement(VoicePath(IntroStem), 0.0, intro)
      && (forall k :: 1 <= k <= |voices| ==> a[k].source == VoicePath(k - 1 + FirstLineStem) && a[k].length == voices[k - 1])
      && a[|voices| + 1].source == VoicePath(OutroStem) && a[|voices| + 1].length == outro
    ensures Assemble(texts, Listing(VoiceFolder(intro, voices, outro))).storyTitle
      == if |texts| > 0 then texts[0] else IntroScript
  {
    var files := Listing(VoiceFolder(intro, voices, outro));
    ListingInOrder(intro, voices, outro);
    Soundtrack(texts, files);
    var a, n := Assemble(texts, files).clip.audio, |voices|;
    assert a[0].source == files[0].path && a[0].length == files[0].length && a[0].start == 0.0;
    assert a[n + 1].source == files[n + 1].path && a[n + 1].length == files[n + 1].length;
    forall k | 1 <= k <= n
      ensures a[k].source == VoicePath(k - 1 + FirstLineStem) && a[k].length == voices[k - 1]
    {
      assert files[k] == VoiceFile(VoicePath(k - 1 + FirstLineStem), voices[k - 1]);
      assert a[k].source == files[k].path && a[k].length == files[k].length;
    }
  }

  /**
   * With more than 990 story lines, the closing's voice plays as segment
   * 991, under the caption of story line 990 when there are more lines after
   * it. The last segment has no caption and plays the file named for the
   * last story line: with exactly 991 lines that is `1000.wav`, the closing
   * itself; with more, the closing plays in the middle of the video.
   */
  lemma ClosingOutOfPlace(texts: seq<string>, voices: seq<Seconds>, intro: Seconds, outro: Seconds)
    requires |texts| == |voices| > OutroStem - FirstLineStem
    ensures var files := Listing(VoiceFolder(intro, voices, outro));
      var closing := OutroStem - FirstLineStem + 1;
      var segs := Segments(texts, files);
      && |files| == |voices| + 1
      && segs[closing].audio == [Placement(VoicePath(OutroStem), 0.0, outro)]
      && (closing < |files| - 1 ==> RoleAt(closing, |files|) == Narration && CaptionAt(texts, |files|, closing) == texts[closing - 1])
      && RoleAt(|files| - 1, |files|) == Outro
      && segs[|files| - 1].audio[0].source == VoicePath(|voices| - 1 + FirstLineStem)
  {
    var files := Listing(VoiceFolder(intro, voices, outro));
    ListingCollision(intro, voices, outro);
    var closing := OutroStem - FirstLineStem + 1;
    var last := |files| - 1;
    SegmentVoice(texts, files, closing);
    SegmentVoice(texts, files, last);
  }
}
