/** The per-detection text pipeline of the main loop: every recognised plate text gets
    its overlay labels, and a "Terdeteksi" sighting is logged the first time a non-empty
    text is seen. Duplicate suppression keeps a bounded window of marks per text. */
module Pipeline {
  import opened PlateText
  import opened PlateCategory
  import opened Region
  import opened RegionTable
  import opened RegionExamples

  const Reading := "Membaca..."

  /** The overlay lines for one detection, given its text, category and region. */
  function Labels(text: string, category: string, city: string): (r: seq<string>)
    ensures text == [] ==> r == [Reading]
    ensures text != [] ==> 1 <= |r| <= 3 && r[0] == "Plat: " + text
    ensures text != [] ==> (("Tipe: " + category in r) <==> category != NoNumber)
    ensures text != [] ==> (("Wilayah: " + city in r) <==> city != Unknown)
    ensures text != [] ==>
            |r| == 1 + (if category != NoNumber then 1 else 0) + (if city != Unknown then 1 else 0)
    ensures text != [] && category != NoNumber ==> r[1] == "Tipe: " + category
    ensures text != [] && city != Unknown ==> r[|r| - 1] == "Wilayah: " + city
  {
    var plat := "Plat: " + text;
    var tipe := "Tipe: " + category;
    var wilayah := "Wilayah: " + city;
    assert plat[0] == 'P' && tipe[0] == 'T' && wilayah[0] == 'W';
    if text == [] then [Reading]
    else
      [plat]
      + (if category != NoNumber then [tipe] else [])
      + (if city != Unknown then [wilayah] else [])
  }

  /** The fields of the console line a new sighting prints (its timestamp left out). */
  datatype Sighting = Sighting(text: string, category: string, city: string)

  /** The console line's fields for one detection: its text, category and region. */
  function SightingOf(text: string, table: CodeTable): (r: Sighting)
    ensures r.text == text
    ensures r.category in {"", NoNumber, Genap, Ganjil}
    ensures Sanitize(text) == [] ==> r.city == Unknown
  {
    Sighting(text, GetPlateCategory(text), Resolve(text, table))
  }

  /** The labels drawn for a detection whose recognised text is text. */
  function Annotate(text: string, table: CodeTable): (r: seq<string>)
    ensures text == [] ==> r == [Reading]
    ensures text != [] ==> |r| >= 1 && r[0] == "Plat: " + text
    ensures ("Wilayah: " + Resolve(text, table) in r) <==> text != [] && Resolve(text, table) != Unknown
  {
    Labels(text, GetPlateCategory(text), Resolve(text, table))
  }

  /** For a non-empty text, the "Tipe" line is shown exactly when the text has a digit. */
  lemma AnnotateShowsCategory(text: string, table: CodeTable)
    requires text != []
    ensures ("Tipe: " + GetPlateCategory(text) in Annotate(text, table)) <==>
            exists i :: 0 <= i < |text| && IsDigit(text[i])
  {
    CategoryNoNumber(text);
  }

  // ---------------------------------------------------------------------------
  // Duplicate suppression: plate_memory, a defaultdict of deque(maxlen=30).

  const WindowCapacity := 30

  /** sum() of a deque of marks: zero exactly when every mark is zero. */
  function Sum(window: seq<int>): (r: int)
    ensures window == [] ==> r == 0
    ensures (forall i :: 0 <= i < |window| ==> window[i] >= 0) ==>
            r >= 0 && (r == 0 <==> forall i :: 0 <= i < |window| ==> window[i] == 0)
  {
    if window == [] then 0 else window[0] + Sum(window[1..])
  }

  /** deque.appendleft on a full-capacity deque: the newest mark goes in front and, when the
      deque is full, the oldest one (at the back) drops out. */
  function AppendLeft(window: seq<int>, x: int): (r: seq<int>)
    requires |window| <= WindowCapacity
    ensures |r| == if |window| < WindowCapacity then |window| + 1 else WindowCapacity
    ensures r[0] == x && r[1..] <= window
  {
    if |window| < WindowCapacity then [x] + window
    else [x] + window[..WindowCapacity - 1]
  }

  class PlateMemory {
    var windows: map<string, seq<int>>

    /** What the code keeps: only non-empty texts have a window, and a text's window is
        the single mark pushed on its first sighting (so well within capacity). */
    ghost predicate Valid()
      reads this
    {
      forall k :: k in windows ==> k != [] && windows[k] == [1]
    }

    constructor ()
      ensures Valid() && windows == map[]
    {
      windows := map[];
    }

    /** `if plate_txt and sum(plate_memory[plate_txt]) == 0: appendleft(1)`. The result
        says whether the sighting is logged. */
    method Observe(text: string) returns (isNew: bool)
      requires Valid()
      modifies this
      ensures Valid()
      ensures isNew <==> text != [] && text !in old(windows)
      ensures windows == if text == [] then old(windows) else old(windows)[text := [1]]
    {
      isNew := false;
      if text != [] {
        if text !in windows {
          // reading a missing key of a defaultdict stores a fresh, empty deque
          windows := windows[text := []];
        }
        if Sum(windows[text]) == 0 {
          windows := windows[text := AppendLeft(windows[text], 1)];
          isNew := true;
        }
      }
    }
  }

  // ---------------------------------------------------------------------------
  // The sightings a run of detections logs.

  /** The non-empty texts among texts. */
  function NonEmpty(texts: seq<string>): set<string>
  {
    set i | 0 <= i < |texts| && texts[i] != [] :: texts[i]
  }

  /** The texts logged, in order, when the texts in seen are already marked: each
      non-empty text that is not yet marked, at its first occurrence. */
  function NewTexts(seen: set<string>, texts: seq<string>): (r: seq<string>)
    ensures |r| <= |texts|
    decreases |texts|
  {
    if texts == [] then []
    else if texts[0] != [] && texts[0] !in seen then
      [texts[0]] + NewTexts(seen + {texts[0]}, texts[1..])
    else NewTexts(seen, texts[1..])
  }

  /** The number of occurrences of x in a log. */
  function Count(log: seq<string>, x: string): nat
  {
    if log == [] then 0 else (if log[0] == x then 1 else 0) + Count(log[1..], x)
  }

  lemma {:induction false} CountAppend(a: seq<string>, b: seq<string>, x: string)
    ensures Count(a + b, x) == Count(a, x) + Count(b, x)
  {
    if a == [] {
      assert a + b == b;
    } else {
      assert (a + b)[1..] == a[1..] + b;
      CountAppend(a[1..], b, x);
    }
  }

  /** Each distinct non-empty text is logged exactly once, unless it was marked before;
      empty text is never logged. */
  lemma {:induction false} LoggedOnce(seen: set<string>, texts: seq<string>, x: string)
    ensures Count(NewTexts(seen, texts), x) ==
            if x != [] && x !in seen && x in texts then 1 else 0
    decreases |texts|
  {
    if texts != [] {
      var t := texts[0];
      assert texts == [t] + texts[1..];
      assert x in texts <==> x == t || x in texts[1..];
      if t != [] && t !in seen {
        CountAppend([t], NewTexts(seen + {t}, texts[1..]), x);
        LoggedOnce(seen + {t}, texts[1..], x);
      } else {
        LoggedOnce(seen, texts[1..], x);
      }
    }
  }

  /** Detections handled one after another share the memory: what a run logs is what its
      first part logs, then what the rest logs with the first part's texts marked. */
  lemma {:induction false} NewTextsAppend(seen: set<string>, a: seq<string>, b: seq<string>)
    ensures NewTexts(seen, a + b) == NewTexts(seen, a) + NewTexts(seen + NonEmpty(a), b)
    decreases |a|
  {
    if a == [] {
      assert a + b == b;
      assert NonEmpty(a) == {};
      assert seen + NonEmpty(a) == seen;
    } else {
      var t := a[0];
      assert (a + b)[0] == t && (a + b)[1..] == a[1..] + b;
      var seen' := if t != [] then seen + {t} else seen;
      NonEmptyCons(a);
      assert seen + NonEmpty(a) == seen' + NonEmpty(a[1..]);
      NewTextsAppend(seen', a[1..], b);
      if !(t != [] && t !in seen) {
        assert seen' == seen;
      }
    }
  }

  lemma NonEmptyCons(a: seq<string>)
    requires a != []
    ensures NonEmpty(a) == (if a[0] != [] then {a[0]} else {}) + NonEmpty(a[1..])
  {
    forall x | x in NonEmpty(a) ensures x in (if a[0] != [] then {a[0]} else {}) + NonEmpty(a[1..]) {
      var i :| 0 <= i < |a| && a[i] != [] && a[i] == x;
      if i > 0 { assert a[1..][i - 1] == x; }
    }
    forall x | x in NonEmpty(a[1..]) ensures x in NonEmpty(a) {
      var i :| 0 <= i < |a[1..]| && a[1..][i] != [] && a[1..][i] == x;
      assert a[i + 1] == x;
    }
  }

  /** A logged text is non-empty, was not marked and occurs among the texts. */
  lemma {:induction false} NewTextsFresh(seen: set<string>, texts: seq<string>)
    ensures forall x :: x in NewTexts(seen, texts) ==> x != [] && x !in seen && x in texts
    decreases |texts|
  {
    if texts != [] {
      var t := texts[0];
      if t != [] && t !in seen {
        NewTextsFresh(seen + {t}, texts[1..]);
      } else {
        NewTextsFresh(seen, texts[1..]);
      }
      assert forall x :: x in texts[1..] ==> x in texts;
    }
  }

  /** The same text in two detections is logged once. */
  lemma ExampleRepeatedPlate()
    ensures NewTexts({}, ["B1234ZZZ", "B1234ZZZ"]) == ["B1234ZZZ"]
  {
  }

  lemma {:induction false} CountAll(log: seq<string>, x: string)
    requires forall y :: y in log ==> y == x
    ensures Count(log, x) == |log|
  {
    if log != [] {
      assert log[0] in log;
      assert forall y :: y in log[1..] ==> y in log;
      CountAll(log[1..], x);
    }
  }

  /** The mark is never pushed out: the same text seen 31 times in a row is logged once. */
  lemma ExampleNoReReport()
    ensures |NewTexts({}, seq(31, i => "B1234ZZZ"))| == 1
  {
    var texts := seq(31, i => "B1234ZZZ");
    assert texts[0] == "B1234ZZZ";
    NewTextsFresh({}, texts);
    LoggedOnce({}, texts, "B1234ZZZ");
    CountAll(NewTexts({}, texts), "B1234ZZZ");
  }

  /** The sighting of "B1234ZZZ": even, and suffix Z under prefix B. */
  lemma ExampleSighting()
    ensures SightingOf("B1234ZZZ", DetailedCodes) == Sighting("B1234ZZZ", Genap, "Kota Depok (Cinere)")
  {
    CategoryExampleDepok();
    ExampleDepok();
  }

  // ---------------------------------------------------------------------------
  // The loops of the main program, without video, detection and drawing.

  /** f applied to every element of s, in order. */
  function MapSeq<A, B>(f: A -> B, s: seq<A>): (r: seq<B>)
    ensures |r| == |s|
  {
    if s == [] then [] else [f(s[0])] + MapSeq(f, s[1..])
  }

  lemma {:induction false} MapSeqAt<A, B>(f: A -> B, s: seq<A>, i: nat)
    requires i < |s|
    ensures MapSeq(f, s)[i] == f(s[i])
  {
    if i > 0 {
      MapSeqAt(f, s[1..], i - 1);
    }
  }

  lemma {:induction false} MapSeqAppend<A, B>(f: A -> B, a: seq<A>, b: seq<A>)
    ensures MapSeq(f, a + b) == MapSeq(f, a) + MapSeq(f, b)
  {
    if a == [] {
      assert a + b == b;
    } else {
      assert (a + b)[0] == a[0] && (a + b)[1..] == a[1..] + b;
      MapSeqAppend(f, a[1..], b);
    }
  }

  lemma MapSeqSnoc<A, B>(f: A -> B, s: seq<A>, i: nat)
    requires i < |s|
    ensures MapSeq(f, s[..i + 1]) == MapSeq(f, s[..i]) + [f(s[i])]
  {
    assert s[..i + 1] == s[..i] + [s[i]];
    MapSeqAppend(f, s[..i], [s[i]]);
    assert [s[i]][1..] == [];
  }

  function AnnotateWith(table: CodeTable): string -> seq<string>
  {
    text => Annotate(text, table)
  }

  function SightingWith(table: CodeTable): string -> Sighting
  {
    text => SightingOf(text, table)
  }

  /** The overlays of a run of detections, one per detection. */
  function Overlays(texts: seq<string>, table: CodeTable): (r: seq<seq<string>>)
    ensures |r| == |texts|
  {
    MapSeq(AnnotateWith(table), texts)
  }

  /** Detection i gets the labels of its own text. */
  lemma OverlaysAt(texts: seq<string>, table: CodeTable, i: nat)
    requires i < |texts|
    ensures Overlays(texts, table)[i] == Annotate(texts[i], table)
  {
    MapSeqAt(AnnotateWith(table), texts, i);
  }

  /** The sightings of a run of logged texts, in order. */
  function Sightings(log: seq<string>, table: CodeTable): (r: seq<Sighting>)
    ensures |r| == |log|
  {
    MapSeq(SightingWith(table), log)
  }

  /** The i-th logged sighting describes the i-th logged text. */
  lemma SightingsAt(log: seq<string>, table: CodeTable, i: nat)
    requires i < |log|
    ensures Sightings(log, table)[i] == SightingOf(log[i], table)
  {
    MapSeqAt(SightingWith(table), log, i);
  }

  /** The detection loop of one frame, in the order the detector returns the detections:
      each gets its labels from annotate, and each text the memory has not marked is
      logged as describe gives it. Generic in the two per-text computations, which only
      depend on the text. */
  method ScanDetections(memory: PlateMemory, texts: seq<string>,
                        annotate: string -> seq<string>, describe: string -> Sighting)
      returns (overlays: seq<seq<string>>, logged: seq<Sighting>)
    requires memory.Valid()
    modifies memory
    ensures memory.Valid()
    ensures overlays == MapSeq(annotate, texts)
    ensures logged == MapSeq(describe, NewTexts(old(memory.windows).Keys, texts))
    ensures memory.windows.Keys == old(memory.windows).Keys + NonEmpty(texts)
  {
    overlays, logged := [], [];
    ghost var log: seq<string> := [];
    for i := 0 to |texts|
      invariant memory.Valid()
      invariant overlays == MapSeq(annotate, texts[..i])
      invariant memory.windows.Keys == old(memory.windows).Keys + NonEmpty(texts[..i])
      invariant log == NewTexts(old(memory.windows).Keys, texts[..i])
      invariant logged == MapSeq(describe, log)
    {
      var text := texts[i];
      MapSeqSnoc(annotate, texts, i);
      overlays := overlays + [annotate(text)];
      NewTextsSnoc(old(memory.windows).Keys, texts, i);
      NonEmptySnoc(texts, i);
      var isNew := memory.Observe(text);
      if isNew {
        MapSeqAppend(describe, log, [text]);
        logged := logged + [describe(text)];
        log := log + [text];
      }
    }
    assert texts[..|texts|] == texts;
  }

  /** One frame of the main loop: every detection is labelled with its category and
      region, and the new texts are logged with theirs. The main loop passes the static
      table. */
  method ProcessFrame(memory: PlateMemory, texts: seq<string>, table: CodeTable)
      returns (overlays: seq<seq<string>>, logged: seq<Sighting>)
    requires memory.Valid()
    modifies memory
    ensures memory.Valid()
    ensures overlays == Overlays(texts, table)
    ensures logged == Sightings(NewTexts(old(memory.windows).Keys, texts), table)
    ensures memory.windows.Keys == old(memory.windows).Keys + NonEmpty(texts)
  {
    overlays, logged := ScanDetections(memory, texts, AnnotateWith(table), SightingWith(table));
  }

  /** One more detection handled: it is logged when non-empty and not marked by the
      earlier ones. */
  lemma NewTextsSnoc(seen: set<string>, texts: seq<string>, i: nat)
    requires i < |texts|
    ensures NewTexts(seen, texts[..i + 1]) ==
            NewTexts(seen, texts[..i]) +
            (if texts[i] != [] && texts[i] !in seen + NonEmpty(texts[..i]) then [texts[i]] else [])
  {
    assert texts[..i + 1] == texts[..i] + [texts[i]];
    NewTextsAppend(seen, texts[..i], [texts[i]]);
    assert [texts[i]][1..] == [];
  }

  lemma NonEmptySnoc(texts: seq<string>, i: nat)
    requires i < |texts|
    ensures NonEmpty(texts[..i + 1]) == NonEmpty(texts[..i]) + (if texts[i] != [] then {texts[i]} else {})
  {
    assert texts[..i + 1] == texts[..i] + [texts[i]];
    NonEmptyAppend(texts[..i], [texts[i]]);
    assert NonEmpty([texts[i]]) == if texts[i] != [] then {texts[i]} else {} by {
      NonEmptyCons([texts[i]]);
      assert NonEmpty([texts[i]][1..]) == {};
    }
  }

  /** All frames' detections, in order. */
  function Flatten(frames: seq<seq<string>>): seq<string>
  {
    if frames == [] then [] else Flatten(frames[..|frames| - 1]) + frames[|frames| - 1]
  }

  /** The overlays of a stream, frame by frame. */
  function FrameOverlays(frames: seq<seq<string>>, table: CodeTable): (r: seq<seq<seq<string>>>)
    ensures |r| == |frames|
  {
    if frames == [] then []
    else FrameOverlays(frames[..|frames| - 1], table) + [Overlays(frames[|frames| - 1], table)]
  }

  /** Frame f of the stream gets the overlays of its own detections. */
  lemma {:induction false} FrameOverlaysAt(frames: seq<seq<string>>, table: CodeTable, f: nat)
    requires f < |frames|
    ensures FrameOverlays(frames, table)[f] == Overlays(frames[f], table)
    decreases |frames|
  {
    if f < |frames| - 1 {
      FrameOverlaysAt(frames[..|frames| - 1], table, f);
    }
  }

  lemma FrameOverlaysSnoc(frames: seq<seq<string>>, table: CodeTable, f: nat)
    requires f < |frames|
    ensures FrameOverlays(frames[..f + 1], table) == FrameOverlays(frames[..f], table) + [Overlays(frames[f], table)]
  {
    assert frames[..f + 1][..f] == frames[..f];
  }

  /** The frame loop: what the whole stream logs is the sightings of its detections taken
      as one run, so each distinct non-empty text of the stream is logged once. */
  method ProcessStream(memory: PlateMemory, frames: seq<seq<string>>, table: CodeTable)
      returns (overlays: seq<seq<seq<string>>>, logged: seq<Sighting>)
    requires memory.Valid()
    modifies memory
    ensures memory.Valid()
    ensures overlays == FrameOverlays(frames, table)
    ensures logged == Sightings(NewTexts(old(memory.windows).Keys, Flatten(frames)), table)
    ensures memory.windows.Keys == old(memory.windows).Keys + NonEmpty(Flatten(frames))
  {
    overlays, logged := [], [];
    for f := 0 to |frames|
      invariant memory.Valid()
      invariant overlays == FrameOverlays(frames[..f], table)
      invariant memory.windows.Keys == old(memory.windows).Keys + NonEmpty(Flatten(frames[..f]))
      invariant logged == Sightings(NewTexts(old(memory.windows).Keys, Flatten(frames[..f])), table)
    {
      var frameOverlays, framelog := ProcessFrame(memory, frames[f], table);
      FrameOverlaysSnoc(frames, table, f);
      overlays := overlays + [frameOverlays];
      assert frames[..f + 1][..f] == frames[..f];
      NewTextsAppend(old(memory.windows).Keys, Flatten(frames[..f]), frames[f]);
      NonEmptyAppend(Flatten(frames[..f]), frames[f]);
      SightingsAppend(NewTexts(old(memory.windows).Keys, Flatten(frames[..f])),
        NewTexts(old(memory.windows).Keys + NonEmpty(Flatten(frames[..f])), frames[f]), table);
      logged := logged + framelog;
    }
    assert frames[..|frames|] == frames;
  }

  lemma NonEmptyAppend(a: seq<string>, b: seq<string>)
    ensures NonEmpty(a + b) == NonEmpty(a) + NonEmpty(b)
  {
    forall x | x in NonEmpty(a + b) ensures x in NonEmpty(a) + NonEmpty(b) {
      var i :| 0 <= i < |a + b| && (a + b)[i] != [] && (a + b)[i] == x;
      if i < |a| { assert a[i] == x; } else { assert b[i - |a|] == x; }
    }
    forall x | x in NonEmpty(a) ensures x in NonEmpty(a + b) {
      var i :| 0 <= i < |a| && a[i] != [] && a[i] == x;
      assert (a + b)[i] == x;
    }
    forall x | x in NonEmpty(b) ensures x in NonEmpty(a + b) {
      var i :| 0 <= i < |b| && b[i] != [] && b[i] == x;
      assert (a + b)[|a| + i] == x;
    }
  }

  lemma SightingsAppend(a: seq<string>, b: seq<string>, table: CodeTable)
    ensures Sightings(a + b, table) == Sightings(a, table) + Sightings(b, table)
  {
    MapSeqAppend(SightingWith(table), a, b);
  }
}
