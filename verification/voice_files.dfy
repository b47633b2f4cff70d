/**
 * The voice folder of AI_youtuber.py. After the folder is emptied, story
 * line `i` is written to `{i+10}.wav` (in `main`), then the opening to
 * `0.wav` and the closing to `1000.wav` (in `create_movie`); the files are
 * then listed and sorted by the integer in their names. The folder is a map
 * from that integer to the length of the audio in the file; as a set of
 * keys it has no listing order, so the order the files come back in plays
 * no part.
 */
module VoiceFiles {
  import opened Text

  /** Length of an audio file, in seconds. */
  type Seconds = r: real | 0.0 <= r

  const IntroStem: int := 0
  const FirstLineStem: int := 10
  const OutroStem: int := 1000

  /** `resources/voice/{stem}.wav`. */
  function VoicePath(stem: int): string {
    "resources/voice/" + (if stem < 0 then "-" + Decimal(-stem) else Decimal(stem)) + ".wav"
  }

  /** The folder after the story lines are written, line `i` to stem `i + 10`. */
  function LineFolder(voices: seq<Seconds>): (folder: map<int, Seconds>)
    ensures forall s :: s in folder <==> FirstLineStem <= s < FirstLineStem + |voices|
    ensures forall i :: 0 <= i < |voices| ==> folder[i + FirstLineStem] == voices[i]
    ensures |folder| == |voices|
    decreases |voices|
  {
    if voices == [] then map[]
    else
      var last := |voices| - 1;
      var before := LineFolder(voices[..last]);
      assert last + FirstLineStem !in before;
      before[last + FirstLineStem := voices[last]]
  }

  /**
   * The folder once the opening and then the closing have been written too.
   * It always holds the opening and the closing, and at most one file per
   * story line besides.
   */
  function VoiceFolder(intro: Seconds, voices: seq<Seconds>, outro: Seconds): (folder: map<int, Seconds>)
    ensures IntroStem in folder && OutroStem in folder
    ensures 2 <= |folder| <= |voices| + 2
  {
    var lines := LineFolder(voices);
    var withIntro := lines[IntroStem := intro];
    assert IntroStem !in lines;
    assert |withIntro| == |voices| + 1;
    if OutroStem in withIntro then
      assert |withIntro[OutroStem := outro]| == |withIntro|;
      withIntro[OutroStem := outro]
    else
      assert |withIntro[OutroStem := outro]| == |withIntro| + 1;
      withIntro[OutroStem := outro]
  }

  /** What each file of the folder holds: the closing overwrites whatever shares its name. */
  lemma FolderEntries(intro: Seconds, voices: seq<Seconds>, outro: Seconds)
    ensures var folder := VoiceFolder(intro, voices, outro);
      && folder[IntroStem] == intro
      && folder[OutroStem] == outro
      && forall i :: 0 <= i < |voices| && i + FirstLineStem != OutroStem ==> folder[i + FirstLineStem] == voices[i]
  {
  }

  predicate Increasing(r: seq<int>) {
    forall i, j :: 0 <= i < j < |r| ==> r[i] < r[j]
  }

  lemma NonEmptyHasMember(s: set<int>)
    requires s != {}
    ensures exists z :: z in s
  {
    if forall z :: z !in s {
      assert false;
    }
  }

  /** A least element of a non-empty set, found by taking out one element at a time. */
  lemma {:induction false} LeastOf(s: set<int>) returns (m: int)
    requires s != {}
    ensures m in s && forall x :: x in s ==> m <= x
    decreases s
  {
    NonEmptyHasMember(s);
    var y :| y in s;
    var rest := s - {y};
    if rest == {} {
      m := y;
      forall x | x in s
        ensures m <= x
      {
        assert x !in rest;
      }
    } else {
      var least := LeastOf(rest);
      m := if y < least then y else least;
      forall x | x in s
        ensures m <= x
      {
        if x != y {
          assert x in rest;
        }
      }
    }
  }

  lemma SmallestExists(s: set<int>)
    requires s != {}
    ensures exists m :: m in s && forall x :: x in s ==> m <= x
  {
    var m := LeastOf(s);
  }

  /** The smallest stem of a non-empty set. */
  function Smallest(s: set<int>): (m: int)
    requires s != {}
    ensures m in s && forall x :: x in s ==> m <= x
  {
    SmallestExists(s);
    var m :| m in s && forall x :: x in s ==> m <= x;
    m
  }

  /** `sorted(stems, key=int)`: the stems in increasing order. */
  function SortedStems(s: set<int>): (r: seq<int>)
    ensures Increasing(r)
    ensures forall x :: x in r <==> x in s
    ensures |r| == |s|
    decreases s
  {
    if s == {} then []
    else
      var m := Smallest(s);
      var rest := SortedStems(s - {m});
      assert forall k :: 0 <= k < |rest| ==> m < rest[k] by {
        forall k | 0 <= k < |rest|
          ensures m < rest[k]
        {
          assert rest[k] in s - {m};
        }
      }
      [m] + rest
  }

  /** The sorted order is the only increasing listing of a set of stems. */
  lemma {:induction false} SortedStemsUnique(s: set<int>, r: seq<int>)
    requires Increasing(r)
    requires forall x :: x in r <==> x in s
    ensures r == SortedStems(s)
    decreases s
  {
    if r == [] {
      NothingListed(s, r);
    } else {
      assert r[0] in r;
      assert r[0] in s;
      var m := Smallest(s);
      var tail := r[1..];
      assert r == [m] + tail && Increasing(tail) && (forall x :: x in tail <==> x in s - {m}) by {
        HeadIsSmallest(s, r, m);
        TailListsRest(s, r, m);
      }
      SortedStemsUnique(s - {m}, tail);
      SortedStemsHead(s);
    }
  }

  /** The sorted stems of a non-empty set: its smallest stem, then the sorted rest. */
  lemma SortedStemsHead(s: set<int>)
    requires s != {}
    ensures SortedStems(s) == [Smallest(s)] + SortedStems(s - {Smallest(s)})
  {
  }

  lemma NothingListed(s: set<int>, r: seq<int>)
    requires forall x :: x in r <==> x in s
    requires r == []
    ensures s == {}
  {
    assert forall x :: x in s ==> x in r;
  }

  lemma HeadIsSmallest(s: set<int>, r: seq<int>, m: int)
    requires Increasing(r)
    requires forall x :: x in r <==> x in s
    requires m in s && forall x :: x in s ==> m <= x
    ensures r != [] && r[0] == m
  {
    assert m in r;
    var i :| 0 <= i < |r| && r[i] == m;
    assert r[0] in s;
    assert r[0] <= r[i];
  }

  lemma TailListsRest(s: set<int>, r: seq<int>, m: int)
    requires Increasing(r)
    requires forall x :: x in r <==> x in s
    requires r != [] && r[0] == m
    ensures Increasing(r[1..])
    ensures forall x :: x in r[1..] <==> x in s - {m}
  {
    var tail := r[1..];
    forall x
      ensures x in tail <==> x in s - {m}
    {
      if x in tail {
        var k :| 0 <= k < |tail| && tail[k] == x;
        assert r[k + 1] == x && r[0] < r[k + 1];
      }
      if x in s - {m} {
        assert x in r;
        var k :| 0 <= k < |r| && r[k] == x;
        assert k != 0;
        assert tail[k - 1] == x;
      }
    }
  }

  /** The stems of the story lines, in line order. */
  function LineStems(n: nat): (r: seq<int>)
    ensures |r| == n && forall i :: 0 <= i < n ==> r[i] == i + FirstLineStem
  {
    seq(n, i => i + FirstLineStem)
  }

  /** The stems in the order the segments are meant to play: the opening, the story lines, the closing. */
  function PlannedStems(n: nat): seq<int> {
    [IntroStem] + LineStems(n) + [OutroStem]
  }

  lemma PlannedIncreasing(n: nat)
    requires n <= OutroStem - FirstLineStem
    ensures Increasing(PlannedStems(n))
  {
    var p := PlannedStems(n);
    assert forall k :: 1 <= k <= n ==> p[k] == k - 1 + FirstLineStem;
  }

  /**
   * With at most 990 story lines, the sorted stems are the opening's, then
   * every story line's in its original order, then the closing's.
   */
  lemma VoiceOrder(intro: Seconds, voices: seq<Seconds>, outro: Seconds)
    requires |voices| <= OutroStem - FirstLineStem
    ensures SortedStems(VoiceFolder(intro, voices, outro).Keys) == PlannedStems(|voices|)
  {
    var folder := VoiceFolder(intro, voices, outro);
    var planned := PlannedStems(|voices|);
    PlannedIncreasing(|voices|);
    forall x
      ensures x in planned <==> x in folder.Keys
    {
      if FirstLineStem <= x < FirstLineStem + |voices| {
        assert planned[x - FirstLineStem + 1] == x;
      }
    }
    SortedStemsUnique(folder.Keys, planned);
  }

  /**
   * With 991 lines or more, line 990 and the closing share `1000.wav`: the
   * closing overwrites the line, so the folder holds one file fewer than
   * there are segments meant, and the line's audio is lost.
   */
  lemma VoiceCollision(intro: Seconds, voices: seq<Seconds>, outro: Seconds)
    requires |voices| > OutroStem - FirstLineStem
    ensures |VoiceFolder(intro, voices, outro)| == |voices| + 1
    ensures VoiceFolder(intro, voices, outro)[OutroStem] == outro
  {
    var lines := LineFolder(voices);
    assert IntroStem !in lines && OutroStem in lines;
    var withIntro := lines[IntroStem := intro];
    assert |withIntro| == |voices| + 1;
    assert withIntro[OutroStem := outro].Keys == withIntro.Keys;
  }

  /** With more than 990 story lines the sorted stems are the opening's and every line's, `1000` among them. */
  lemma CollisionStems(intro: Seconds, voices: seq<Seconds>, outro: Seconds)
    requires |voices| > OutroStem - FirstLineStem
    ensures SortedStems(VoiceFolder(intro, voices, outro).Keys) == [IntroStem] + LineStems(|voices|)
  {
    var folder := VoiceFolder(intro, voices, outro);
    var stems := [IntroStem] + LineStems(|voices|);
    assert forall k :: 1 <= k <= |voices| ==> stems[k] == k - 1 + FirstLineStem;
    assert Increasing(stems);
    forall x
      ensures x in stems <==> x in folder.Keys
    {
      if FirstLineStem <= x < FirstLineStem + |voices| {
        assert stems[x - FirstLineStem + 1] == x;
      }
    }
    SortedStemsUnique(folder.Keys, stems);
  }

  /** One entry of `voice_path` in `create_movie`: the file's path and the length of its audio. */
  datatype VoiceFile = VoiceFile(path: string, length: Seconds)

  /** The files of `folder` named by `stems`, in that order. */
  function FilesOf(folder: map<int, Seconds>, stems: seq<int>): (files: seq<VoiceFile>)
    requires forall k :: 0 <= k < |stems| ==> stems[k] in folder
    ensures |files| == |stems|
  {
    if stems == [] then []
    else
      var last := stems[|stems| - 1];
      FilesOf(folder, stems[..|stems| - 1]) + [VoiceFile(VoicePath(last), folder[last])]
  }

  lemma {:induction false} FilesOfAt(folder: map<int, Seconds>, stems: seq<int>, k: nat)
    requires forall j :: 0 <= j < |stems| ==> stems[j] in folder
    requires k < |stems|
    ensures FilesOf(folder, stems)[k] == VoiceFile(VoicePath(stems[k]), folder[stems[k]])
  {
    var front := stems[..|stems| - 1];
    if k < |front| {
      assert front[k] == stems[k];
      FilesOfAt(folder, front, k);
    }
  }

  /** The voice files of a folder, sorted by the number in their names: one entry per file. */
  function Listing(folder: map<int, Seconds>): (files: seq<VoiceFile>)
    ensures |files| == |folder|
  {
    var stems := SortedStems(folder.Keys);
    assert |folder.Keys| == |folder|;
    assert forall k :: 0 <= k < |stems| ==> stems[k] in stems;
    FilesOf(folder, stems)
  }

  /** What the files in the planned order hold: each stem's own voice. */
  lemma PlannedFiles(intro: Seconds, voices: seq<Seconds>, outro: Seconds)
    requires |voices| <= OutroStem - FirstLineStem
    ensures var folder := VoiceFolder(intro, voices, outro);
      var planned := PlannedStems(|voices|);
      && (forall k :: 0 <= k < |planned| ==> planned[k] in folder)
      && var files := FilesOf(folder, planned);
      && |files| == |voices| + 2
      && files[0] == VoiceFile(VoicePath(IntroStem), intro)
      && files[|voices| + 1] == VoiceFile(VoicePath(OutroStem), outro)
      && forall i :: 0 <= i < |voices| ==> files[i + 1] == VoiceFile(VoicePath(i + FirstLineStem), voices[i])
  {
    var folder := VoiceFolder(intro, voices, outro);
    var planned := PlannedStems(|voices|);
    FolderEntries(intro, voices, outro);
    assert forall k :: 1 <= k <= |voices| ==> planned[k] == k - 1 + FirstLineStem;
    var files := FilesOf(folder, planned);
    FilesOfAt(folder, planned, 0);
    FilesOfAt(folder, planned, |voices| + 1);
    forall i | 0 <= i < |voices|
      ensures files[i + 1] == VoiceFile(VoicePath(i + FirstLineStem), voices[i])
    {
      FilesOfAt(folder, planned, i + 1);
    }
  }

  /**
   * With at most 990 story lines the listing plays the opening, every line
   * in story order, then the closing.
   */
  lemma ListingInOrder(intro: Seconds, voices: seq<Seconds>, outro: Seconds)
    requires |voices| <= OutroStem - FirstLineStem
    ensures var files := Listing(VoiceFolder(intro, voices, outro));
      && |files| == |voices| + 2
      && files[0] == VoiceFile(VoicePath(IntroStem), intro)
      && files[|voices| + 1] == VoiceFile(VoicePath(OutroStem), outro)
      && forall i :: 0 <= i < |voices| ==> files[i + 1] == VoiceFile(VoicePath(i + FirstLineStem), voices[i])
  {
    var folder := VoiceFolder(intro, voices, outro);
    VoiceOrder(intro, voices, outro);
    PlannedFiles(intro, voices, outro);
    assert Listing(folder) == FilesOf(folder, PlannedStems(|voices|));
  }

  /** What the files in the order of the colliding folder hold: the closing's voice at `1000`, every other line's own. */
  lemma CollisionFiles(intro: Seconds, voices: seq<Seconds>, outro: Seconds)
    requires |voices| > OutroStem - FirstLineStem
    ensures var folder := VoiceFolder(intro, voices, outro);
      var stems := [IntroStem] + LineStems(|voices|);
      && (forall k :: 0 <= k < |stems| ==> stems[k] in folder)
      && var files := FilesOf(folder, stems);
      && |files| == |voices| + 1
      && files[0] == VoiceFile(VoicePath(IntroStem), intro)
      && files[OutroStem - FirstLineStem + 1] == VoiceFile(VoicePath(OutroStem), outro)
      && files[|voices|].path == VoicePath(|voices| - 1 + FirstLineStem)
      && forall i :: 0 <= i < |voices| && i != OutroStem - FirstLineStem ==>
           files[i + 1] == VoiceFile(VoicePath(i + FirstLineStem), voices[i])
  {
    var folder := VoiceFolder(intro, voices, outro);
    var stems := [IntroStem] + LineStems(|voices|);
    FolderEntries(intro, voices, outro);
    assert forall k :: 1 <= k <= |voices| ==> stems[k] == k - 1 + FirstLineStem;
    var files := FilesOf(folder, stems);
    FilesOfAt(folder, stems, 0);
    FilesOfAt(folder, stems, OutroStem - FirstLineStem + 1);
    FilesOfAt(folder, stems, |voices|);
    forall i | 0 <= i < |voices| && i != OutroStem - FirstLineStem
      ensures files[i + 1] == VoiceFile(VoicePath(i + FirstLineStem), voices[i])
    {
      FilesOfAt(folder, stems, i + 1);
    }
  }

  /**
   * With more than 990 story lines, the closing sits at position 991 of the
   * listing, in place of line 990, and the listing ends with the file of the
   * last story line (which is `1000.wav`, the closing, when there are exactly
   * 991 lines).
   */
  lemma ListingCollision(intro: Seconds, voices: seq<Seconds>, outro: Seconds)
    requires |voices| > OutroStem - FirstLineStem
    ensures var files := Listing(VoiceFolder(intro, voices, outro));
      && |files| == |voices| + 1
      && files[0] == VoiceFile(VoicePath(IntroStem), intro)
      && files[OutroStem - FirstLineStem + 1] == VoiceFile(VoicePath(OutroStem), outro)
      && files[|voices|].path == VoicePath(|voices| - 1 + FirstLineStem)
      && forall i :: 0 <= i < |voices| && i != OutroStem - FirstLineStem ==>
           files[i + 1] == VoiceFile(VoicePath(i + FirstLineStem), voices[i])
  {
    var folder := VoiceFolder(intro, voices, outro);
    CollisionStems(intro, voices, outro);
    CollisionFiles(intro, voices, outro);
    assert Listing(folder) == FilesOf(folder, [IntroStem] + LineStems(|voices|));
  }
}
