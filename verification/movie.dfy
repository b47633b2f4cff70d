/**
 * The clip builder of Movie_maker.py. A moviepy clip is modelled by what the
 * pipeline depends on: its length, its stack of visual layers (each with the
 * time window it is shown in) and the audio tracks placed on it. Pixels,
 * fonts, colours, strokes, frame rates and the encoder are not modelled.
 *
 * Two moviepy rules are part of the model: a composite of a clip and a layer
 * lasts until the later of the two ends, and concatenation plays the second
 * clip right after the first.
 */
module Movie {
  import opened Wrappers

  datatype Position = Center | At(x: int, y: int)

  /** What a layer shows. */
  datatype Visual =
    | Backdrop                                                            // the initial ColorClip
    | Caption(text: string, fontSize: nat, position: Position)            // TextClip
    | Picture(path: string, position: Position, ratioX: real, ratioY: real)  // ImageClip
    | Footage(path: string, position: Position, ratioX: real, ratioY: real)  // VideoFileClip
    | Rectangle(position: Position, width: nat, height: nat)              // ColorClip
    | Disc(position: Position, radius: nat)                               // drawn circle

  /** A layer shown from `start` to `end` seconds of the clip. */
  datatype Layer = Layer(visual: Visual, start: real, end: real)

  /** An audio file that starts at `start` seconds of the clip and plays for `length` seconds. */
  datatype Placement = Placement(source: string, start: real, length: real)

  /** A clip: its length, its layers from bottom to top, and its audio tracks in the order they were added. */
  datatype Clip = Clip(duration: real, layers: seq<Layer>, audio: seq<Placement>)

  function Max(a: real, b: real): real { if a >= b then a else b }

  function Min(a: real, b: real): real { if a <= b then a else b }

  /** An explicit end time, or the length of the clip when it is omitted. */
  function EndOr(endTime: Option<real>, c: Clip): real {
    if endTime.Some? then endTime.value else c.duration
  }

  /** The clip has a length, and every layer ends within it. */
  predicate Covers(c: Clip) {
    0.0 <= c.duration && forall k :: 0 <= k < |c.layers| ==> c.layers[k].end <= c.duration
  }

  /** `ColorClip(duration=d)`: one backdrop layer, silent. */
  function Blank(d: real): (c: Clip)
    ensures c.duration == d && c.audio == []
    ensures c.layers == [Layer(Backdrop, 0.0, d)]
    ensures 0.0 <= d ==> Covers(c)
  {
    Clip(d, [Layer(Backdrop, 0.0, d)], [])
  }

  /**
   * `CompositeVideoClip([clip, layer])`: the layer goes on top of the existing
   * layers, which are kept in order; the composite lasts until the later of
   * the clip's end and the layer's end; the audio is kept.
   */
  function Stack(c: Clip, layer: Layer): (r: Clip)
    ensures r.layers == c.layers + [layer] && r.audio == c.audio
    ensures r.duration >= c.duration && r.duration >= layer.end
    ensures layer.end <= c.duration ==> r.duration == c.duration
    ensures c.duration < layer.end ==> r.duration == layer.end
    ensures Covers(c) ==> Covers(r)
  {
    Clip(Max(c.duration, layer.end), c.layers + [layer], c.audio)
  }

  /** `add_text`: nothing for an empty text; otherwise a caption up to `end_time`, or to the end of the clip. */
  function WithText(c: Clip, text: string, fontSize: nat, position: Position, startTime: real, endTime: Option<real>): (r: Clip)
    ensures text == "" ==> r == c
    ensures text != "" ==> |r.layers| == |c.layers| + 1 && r.layers[..|c.layers|] == c.layers
    ensures text != "" ==> r.layers[|c.layers|] == Layer(Caption(text, fontSize, position), startTime, EndOr(endTime, c))
    ensures endTime.None? ==> r.duration == c.duration
  {
    if text == "" then c
    else Stack(c, Layer(Caption(text, fontSize, position), startTime, EndOr(endTime, c)))
  }

  /** `add_image`: a picture up to `end_time`, or to the end of the clip. */
  function WithImage(c: Clip, path: string, endTime: Option<real>, position: Position, startTime: real, ratioX: real, ratioY: real): (r: Clip)
    ensures r.layers == c.layers + [Layer(Picture(path, position, ratioX, ratioY), startTime, EndOr(endTime, c))]
    ensures endTime.None? ==> r.duration == c.duration
    ensures r.audio == c.audio
  {
    Stack(c, Layer(Picture(path, position, ratioX, ratioY), startTime, EndOr(endTime, c)))
  }

  /**
   * `add_video`: a video up to `end_time`, or to the end of the clip. A
   * `VideoFileClip` brings the file's own sound along (`soundtrack` is its
   * length, `None` for a file without sound); the composite mixes it in after
   * the existing tracks from `start_time`, cut to the layer's window.
   */
  function WithVideo(c: Clip, path: string, soundtrack: Option<real>, position: Position, startTime: real,
                     endTime: Option<real>, ratioX: real, ratioY: real): (r: Clip)
    ensures r.layers == c.layers + [Layer(Footage(path, position, ratioX, ratioY), startTime, EndOr(endTime, c))]
    ensures endTime.None? ==> r.duration == c.duration
    ensures soundtrack.None? ==> r.audio == c.audio
    ensures soundtrack.Some? ==>
      && |r.audio| == |c.audio| + 1 && r.audio[..|c.audio|] == c.audio
      && var p := r.audio[|c.audio|];
      && p.source == path && p.start == startTime
      && p.length <= soundtrack.value && p.length <= EndOr(endTime, c) - startTime
      && (p.length == soundtrack.value || p.length == EndOr(endTime, c) - startTime)
  {
    var shown := Stack(c, Layer(Footage(path, position, ratioX, ratioY), startTime, EndOr(endTime, c)));
    if soundtrack.None? then shown
    else shown.(audio := c.audio + [Placement(path, startTime, Min(soundtrack.value, EndOr(endTime, c) - startTime))])
  }

  /** `add_rectangle`: a rectangle up to `end_time`, or to the end of the clip. */
  function WithRectangle(c: Clip, position: Position, width: nat, height: nat, startTime: real, endTime: Option<real>): (r: Clip)
    ensures r.layers == c.layers + [Layer(Rectangle(position, width, height), startTime, EndOr(endTime, c))]
    ensures endTime.None? ==> r.duration == c.duration
  {
    Stack(c, Layer(Rectangle(position, width, height), startTime, EndOr(endTime, c)))
  }

  /** `add_circle` at a coordinate position with an explicit end time (the only way it succeeds). */
  function WithCircle(c: Clip, position: Position, radius: nat, startTime: real, endTime: real): (r: Clip)
    ensures r.layers == c.layers + [Layer(Disc(position, radius), startTime, endTime)]
  {
    Stack(c, Layer(Disc(position, radius), startTime, endTime))
  }

  /**
   * `add_audio`: the file (of `length` seconds) is cut to at most the window
   * from `start_time` to `end_time` (by default the end of the clip) and
   * placed at `start_time`; it becomes the clip's only track when the clip
   * was silent and is mixed in after the existing tracks otherwise. The
   * picture is unchanged.
   */
  function WithAudio(c: Clip, source: string, length: real, startTime: real, endTime: Option<real>): (r: Clip)
    ensures r.duration == c.duration && r.layers == c.layers
    ensures |r.audio| == |c.audio| + 1 && r.audio[..|c.audio|] == c.audio
    ensures var p := r.audio[|c.audio|];
      && p.source == source && p.start == startTime
      && p.length <= length && p.length <= EndOr(endTime, c) - startTime
      && (p.length == length || p.length == EndOr(endTime, c) - startTime)
  {
    var placed := Placement(source, startTime, Min(length, EndOr(endTime, c) - startTime));
    if c.audio == [] then c.(audio := [placed]) else c.(audio := c.audio + [placed])
  }

  function ShiftLayers(layers: seq<Layer>, offset: real): (r: seq<Layer>)
    ensures |r| == |layers|
    ensures forall k :: 0 <= k < |r| ==>
      r[k] == Layer(layers[k].visual, layers[k].start + offset, layers[k].end + offset)
  {
    if layers == [] then []
    else [Layer(layers[0].visual, layers[0].start + offset, layers[0].end + offset)]
         + ShiftLayers(layers[1..], offset)
  }

  function ShiftAudio(audio: seq<Placement>, offset: real): (r: seq<Placement>)
    ensures |r| == |audio|
    ensures forall k :: 0 <= k < |r| ==>
      r[k] == Placement(audio[k].source, audio[k].start + offset, audio[k].length)
  {
    if audio == [] then []
    else [Placement(audio[0].source, audio[0].start + offset, audio[0].length)]
         + ShiftAudio(audio[1..], offset)
  }

  /**
   * `concatenate_videoclips([first, second])`: `second` plays right after
   * `first`, so its layers and tracks move later by the length of `first`,
   * and the lengths add up.
   */
  function Concat(first: Clip, second: Clip): Clip {
    Clip(first.duration + second.duration,
         first.layers + ShiftLayers(second.layers, first.duration),
         first.audio + ShiftAudio(second.audio, first.duration))
  }

  /** Concatenation keeps every layer within the clip when both parts do, and keeps both parts in order. */
  lemma ConcatCovers(first: Clip, second: Clip)
    requires Covers(first) && Covers(second)
    ensures Covers(Concat(first, second))
    ensures Concat(first, second).layers[..|first.layers|] == first.layers
    ensures Concat(first, second).audio[..|first.audio|] == first.audio
  {
    var r := Concat(first, second);
    forall k | 0 <= k < |r.layers|
      ensures r.layers[k].end <= r.duration
    {
      if k >= |first.layers| {
        assert r.layers[k] == ShiftLayers(second.layers, first.duration)[k - |first.layers|];
        assert second.layers[k - |first.layers|].end <= second.duration;
      } else {
        assert r.layers[k] == first.layers[k];
      }
    }
  }

  /** A `Movie_maker` instance: `clip` is replaced by every call; `duration` is set once. */
  class MovieMaker {
    var clip: Clip
    var duration: real

    /** `__init__`: a backdrop of the given length. */
    constructor(duration: real)
      ensures clip == Blank(duration) && this.duration == duration
    {
      clip := Clip(duration, [Layer(Backdrop, 0.0, duration)], []);
      this.duration := duration;
    }

    method AddText(text: string, fontSize: nat, position: Position, startTime: real, endTime: Option<real>)
      modifies this
      ensures clip == WithText(old(clip), text, fontSize, position, startTime, endTime)
      ensures duration == old(duration)
    {
      if text == "" {
        return;
      }
      var end := if endTime.None? then clip.duration else endTime.value;
      clip := Stack(clip, Layer(Caption(text, fontSize, position), startTime, end));
    }

    method AddImage(path: string, endTime: Option<real>, position: Position, startTime: real, ratioX: real, ratioY: real)
      modifies this
      ensures clip == WithImage(old(clip), path, endTime, position, startTime, ratioX, ratioY)
      ensures duration == old(duration)
    {
      var end := if endTime.Some? then endTime.value else clip.duration;
      clip := Stack(clip, Layer(Picture(path, position, ratioX, ratioY), startTime, end));
    }

    /** `add_audio`; a window that ends before it starts is not modelled. */
    method AddAudio(source: string, length: real, startTime: real, endTime: Option<real>)
      requires startTime <= EndOr(endTime, clip)
      modifies this
      ensures clip == WithAudio(old(clip), source, length, startTime, endTime)
      ensures duration == old(duration)
    {
      var end := if endTime.None? then clip.duration else endTime.value;
      var placed := Placement(source, startTime, Min(length, end - startTime));
      if clip.audio == [] {
        clip := clip.(audio := [placed]);
      } else {
        clip := clip.(audio := clip.audio + [placed]);
      }
    }

    method AddVideo(path: string, soundtrack: Option<real>, position: Position, startTime: real,
                    endTime: Option<real>, ratioX: real, ratioY: real)
      modifies this
      ensures clip == WithVideo(old(clip), path, soundtrack, position, startTime, endTime, ratioX, ratioY)
      ensures duration == old(duration)
    {
      var end := if endTime.Some? then endTime.value else clip.duration;
      var sound := clip.audio;
      if soundtrack.Some? {
        sound := sound + [Placement(path, startTime, Min(soundtrack.value, end - startTime))];
      }
      clip := Stack(clip, Layer(Footage(path, position, ratioX, ratioY), startTime, end)).(audio := sound);
    }

    method AddRectangle(position: Position, width: nat, height: nat, startTime: real, endTime: Option<real>)
      modifies this
      ensures clip == WithRectangle(old(clip), position, width, height, startTime, endTime)
      ensures duration == old(duration)
    {
      var end := if endTime.Some? then endTime.value else clip.duration;
      clip := Stack(clip, Layer(Rectangle(position, width, height), startTime, end));
    }

    /**
     * `add_circle` raises a TypeError, and leaves the clip as it was, when
     * the position is the string `"center"` (its centre is computed as
     * `position[0] - radius`) or when `end_time` is omitted (`end_time -
     * start_time` is computed before `end_time` is looked at); `raised`
     * reports that.
     */
    method AddCircle(position: Position, radius: nat, startTime: real, endTime: Option<real>) returns (raised: bool)
      modifies this
      ensures raised <==> position == Center || endTime.None?
      ensures clip == if raised then old(clip) else WithCircle(old(clip), position, radius, startTime, endTime.value)
      ensures duration == old(duration)
    {
      if position == Center || endTime.None? {
        return true;
      }
      clip := Stack(clip, Layer(Disc(position, radius), startTime, endTime.value));
      raised := false;
    }

    method GetClip() returns (c: Clip)
      ensures c == clip
    {
      c := clip;
    }

    /** `concatenate_clips`: `other` plays after this clip; the `duration` field is left as it was. */
    method ConcatenateClips(other: Clip)
      modifies this
      ensures clip == Concat(old(clip), other)
      ensures duration == old(duration)
    {
      clip := Concat(clip, other);
    }
  }
}
