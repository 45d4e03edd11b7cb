/** The per-face stabilisation tracker: the body of the detection loop. Records
    are keyed by the exact box; after the global four-second gate each record
    locks its age, emotion and generation once, and the first lock of the
    process also opens the only song link the browser is ever given. */
module Tracker {
  import opened Heuristics
  import opened Songs

  datatype Option<T> = None | Some(value: T)

  /** One entry of the classifier's score map, in the classifier's order.
      Scores are abstract ordered values: only their comparison matters. */
  datatype EmotionScore = EmotionScore(name: string, score: int)

  /** One detected face: its box and its emotion scores. */
  datatype Detection = Detection(box: Box, scores: seq<EmotionScore>)

  /** The tracked data of one face identity. */
  datatype FaceRecord = FaceRecord(
    age: Option<int>,
    emotion: Option<string>,
    generation: Option<string>,
    look: string,
    songLink: Option<string>)

  /** What is drawn above a face: the stored fields, or the placeholder. Age
      and generation are shown as stored, so an unset one would read "None". */
  datatype Annotation =
    | Locked(emotion: string, age: Option<int>, generation: Option<string>, look: string)
    | Stabilizing

  /** `max(scores, key=scores.get)`: the index of the first entry whose score
      no other entry exceeds. */
  function DominantIndex(scores: seq<EmotionScore>): (k: nat)
    requires |scores| > 0
    ensures k < |scores|
    ensures forall j :: 0 <= j < |scores| ==> scores[j].score <= scores[k].score
    ensures forall j :: 0 <= j < k ==> scores[j].score < scores[k].score
  {
    if |scores| == 1 then 0
    else
      var best := DominantIndex(scores[..|scores| - 1]);
      if scores[|scores| - 1].score > scores[best].score then |scores| - 1 else best
  }

  /** The label `max` picks: the name of an entry no other entry outscores,
      the first such in the classifier's order. */
  function DominantEmotion(scores: seq<EmotionScore>): (emotion: string)
    requires |scores| > 0
    ensures exists k ::
              && 0 <= k < |scores| && scores[k].name == emotion
              && (forall j :: 0 <= j < |scores| ==> scores[j].score <= scores[k].score)
              && (forall j :: 0 <= j < k ==> scores[j].score < scores[k].score)
  {
    scores[DominantIndex(scores)].name
  }

  /** A record as first created: nothing locked, no link, a look. */
  function NewRecord(look: string): FaceRecord {
    FaceRecord(None, None, None, look, None)
  }

  /** The display decision of the `if face_data[face_id]["emotion"]` branch
      that draws the text: the stored fields are shown when
      the stored emotion is truthy, i.e. set and non-empty. */
  function Annotate(r: FaceRecord): (a: Annotation)
    ensures a.Locked? <==> r.emotion.Some? && r.emotion.value != ""
    ensures a.Locked? ==> a.emotion == r.emotion.value && a.age == r.age && a.generation == r.generation && a.look == r.look
  {
    if r.emotion.Some? && r.emotion.value != "" then
      Locked(r.emotion.value, r.age, r.generation, r.look)
    else
      Stabilizing
  }

  /** What every record of box `box` satisfies: a look from the fixed list;
      age, emotion and generation set together; a locked age drawn from the
      box's bracket and a generation derived from it; a stored link that is
      the link `songs` suggests for the locked values. */
  ghost predicate RecordValid(songs: map<string, map<string, Song>>, box: Box, r: FaceRecord) {
    && r.look in LOOKS
    && r.age.Some? == r.emotion.Some?
    && r.generation.Some? == r.emotion.Some?
    && (r.age.Some? ==>
          && AgeBracket(Area(box)).lo <= r.age.value <= AgeBracket(Area(box)).hi
          && r.generation == Some(CategorizeGeneration(r.age.value)))
    && (r.songLink.Some? ==>
          && r.emotion.Some?
          && r.songLink.value == Suggest(songs, r.emotion.value, r.generation.value).link)
  }

  /** A locked record always shows a generation consistent with the shown
      age, never "Boomer", and a look from the fixed list. */
  lemma LockedAnnotationConsistent(songs: map<string, map<string, Song>>, box: Box, r: FaceRecord)
    requires RecordValid(songs, box, r)
    requires Annotate(r).Locked?
    ensures var a := Annotate(r);
      && a.age.Some? && a.generation.Some?
      && a.generation.value == CategorizeGeneration(a.age.value)
      && a.generation.value != BOOMER
      && 12 <= a.age.value <= 45
      && a.look in LOOKS
  {
  }

  /** The box has no record yet, or its record is not locked. */
  ghost predicate Unlocked(data: map<Box, FaceRecord>, box: Box) {
    box !in data || data[box].emotion.None?
  }

  /** Boxes of the first `n` detections. */
  ghost function Boxes(detections: seq<Detection>, n: nat): set<Box>
    requires n <= |detections|
  {
    set j | 0 <= j < n :: detections[j].box
  }

  /** The gate was closed at each of the first `n` readings. */
  ghost predicate GateClosedBefore(clock: seq<real>, n: nat)
    requires n <= |clock|
  {
    forall j :: 0 <= j < n ==> !IsStabilized(clock[j])
  }

  /** Detection `j` is the first of the frame that sees the gate open. */
  ghost predicate FirstPastGate(clock: seq<real>, j: int) {
    0 <= j < |clock| && IsStabilized(clock[j]) && GateClosedBefore(clock, j)
  }

  /** Among the first `n` detections, the first one of `box` that saw the gate
      open carried `emotion` as its dominant emotion. */
  ghost predicate LockedBy(detections: seq<Detection>, clock: seq<real>, n: nat, box: Box, emotion: string)
    requires n <= |detections| == |clock|
    requires forall j :: 0 <= j < |detections| ==> |detections[j].scores| > 0
  {
    exists j :: 0 <= j < n && detections[j].box == box && IsStabilized(clock[j])
      && DominantEmotion(detections[j].scores) == emotion
      && forall m :: 0 <= m < j && detections[m].box == box ==> !IsStabilized(clock[m])
  }

  /** The state the tracker keeps across frames: every record valid for its
      box; the browser opened at most once, exactly when the one-shot flag is
      set; the flag set as soon as any record is locked; and the one link
      opened stored in exactly one record. */
  ghost predicate TrackerInvariant(songs: map<string, map<string, Song>>, data: map<Box, FaceRecord>,
                                   played: bool, log: seq<string>) {
    && (forall b :: b in data ==> RecordValid(songs, b, data[b]))
    && |log| <= 1
    && (played <==> log != [])
    && (forall b :: b in data && data[b].emotion.Some? ==> played)
    && (forall b :: b in data && data[b].songLink.Some? ==> log == [data[b].songLink.value])
    && (forall b, b' :: b in data && b' in data && data[b].songLink.Some? && data[b'].songLink.Some? ==> b == b')
    && (played ==> exists b :: b in data && data[b].songLink.Some?)
  }

  /** Over the fixed table, a stored link is what `suggest_song` returns for
      the record's locked emotion, generation and age, and it is the one link
      the browser was given. */
  lemma StoredLinkIsSuggestion(data: map<Box, FaceRecord>, played: bool, log: seq<string>, b: Box)
    requires TrackerInvariant(SONG_DATABASE, data, played, log)
    requires b in data && data[b].songLink.Some?
    ensures data[b].emotion.Some? && data[b].generation.Some? && data[b].age.Some?
    ensures data[b].songLink.value
         == SuggestSong(data[b].emotion.value, data[b].generation.value, data[b].age.value).link
    ensures log == [data[b].songLink.value]
  {
  }

  /** Two consequences of TrackerInvariant, restated on their own: every
      locked record was locked after the one-shot flag was set, and only
      locked records carry a link. This is a proof aid: the frame lemmas
      need only these two facts, and giving them the whole invariant makes
      their proofs much more expensive. */
  ghost predicate LocksNeedPlayed(data: map<Box, FaceRecord>, played: bool) {
    forall b :: b in data ==>
      (data[b].emotion.Some? ==> played) && (data[b].songLink.Some? ==> data[b].emotion.Some?)
  }

  lemma InvariantLocksNeedPlayed(songs: map<string, map<string, Song>>, data: map<Box, FaceRecord>,
                                 played: bool, log: seq<string>)
    requires TrackerInvariant(songs, data, played, log)
    ensures LocksNeedPlayed(data, played)
  {
  }

  /** The lock inside the `if is_stabilized() and ... is None` branch: the
      drawn age, the current dominant emotion and the generation of that age,
      stored together, whatever the emotion. */
  function Lock(r: FaceRecord, age: int, emotion: string): (locked: FaceRecord)
    ensures locked.look == r.look && locked.songLink == r.songLink
    ensures locked.emotion == Some(emotion)
    ensures locked.age == Some(age) && locked.generation == Some(CategorizeGeneration(age))
    ensures emotion != "" ==> Annotate(locked) == Locked(emotion, Some(age), Some(CategorizeGeneration(age)), r.look)
    ensures emotion == "" ==> Annotate(locked) == Stabilizing
  {
    r.(age := Some(age), emotion := Some(emotion), generation := Some(CategorizeGeneration(age)))
  }

  /** Inserting a fresh record keeps the invariant. */
  lemma InsertKeepsInvariant(songs: map<string, map<string, Song>>, data: map<Box, FaceRecord>,
                             played: bool, log: seq<string>, box: Box, look: string)
    requires TrackerInvariant(songs, data, played, log)
    requires box !in data && look in LOOKS
    ensures TrackerInvariant(songs, data[box := NewRecord(look)], played, log)
  {
    var data' := data[box := NewRecord(look)];
    forall b | b in data'
      ensures RecordValid(songs, b, data'[b])
    {
      if b != box {
        assert data'[b] == data[b];
      }
    }
    if played {
      var w :| w in data && data[w].songLink.Some?;
      assert data'[w] == data[w];
    }
  }

  /** Locking a record after the one-shot is spent keeps the invariant. */
  lemma LockKeepsInvariant(songs: map<string, map<string, Song>>, data: map<Box, FaceRecord>, log: seq<string>,
                           box: Box, roll: nat, emotion: string)
    requires TrackerInvariant(songs, data, true, log)
    requires box in data && data[box].emotion.None? && roll <= AgeSpan(box)
    ensures TrackerInvariant(songs, data[box := Lock(data[box], EstimateAge(box, roll), emotion)], true, log)
  {
    var w :| w in data && data[w].songLink.Some?;
    assert w != box;
    assert data[box := Lock(data[box], EstimateAge(box, roll), emotion)][w] == data[w];
  }

  /** The first lock of the run, which also stores and opens the suggested
      link, keeps the invariant. */
  lemma LockAndLinkKeepsInvariant(songs: map<string, map<string, Song>>, data: map<Box, FaceRecord>,
                                  box: Box, roll: nat, emotion: string)
    requires TrackerInvariant(songs, data, false, [])
    requires box in data && roll <= AgeSpan(box)
    ensures var age := EstimateAge(box, roll);
      var link := Suggest(songs, emotion, CategorizeGeneration(age)).link;
      TrackerInvariant(songs, data[box := Lock(data[box], age, emotion).(songLink := Some(link))], true, [link])
  {
    var age := EstimateAge(box, roll);
    var link := Suggest(songs, emotion, CategorizeGeneration(age)).link;
    var data' := data[box := Lock(data[box], age, emotion).(songLink := Some(link))];
    assert data'[box].songLink.Some?;
  }

  /** The effect of one detection of the `for emotion in emotions` loop on
      the tracker state (`data`, `played`, `log`), giving (`data'`,
      `played'`, `log'`): the detection's box has a record and no other
      record changes; a locked record, or an unlocked one while the gate is
      closed, stays as it is; a new box gets a fresh record; an unlocked record seen with the gate open
      locks the detection's dominant emotion, and if the one-shot was unused
      it also receives a link and the browser is opened once. */
  ghost predicate ObserveStep(data: map<Box, FaceRecord>, played: bool, log: seq<string>,
                              d: Detection, elapsed: real,
                              data': map<Box, FaceRecord>, played': bool, log': seq<string>)
    requires |d.scores| > 0
  {
    var locks := Unlocked(data, d.box) && IsStabilized(elapsed);
    && d.box in data'
    && data' == data[d.box := data'[d.box]]
    && (d.box in data ==> data'[d.box].look == data[d.box].look)
    && (!locks && d.box in data ==> data'[d.box] == data[d.box])
    && (!locks && d.box !in data ==> data'[d.box] == NewRecord(data'[d.box].look))
    && (locks ==> data'[d.box].emotion == Some(DominantEmotion(d.scores)))
    && played' == (played || locks)
    && (locks && !played ==> data'[d.box].songLink.Some? && log' == [data'[d.box].songLink.value])
    && (!(locks && !played) ==> log' == log)
  }

  /** The records after the first `n` detections of a frame, against the
      records `data0` at its start: none is removed, the only new keys are
      boxes seen, looks are kept and locked records are untouched. */
  ghost predicate FrameRecords(data0: map<Box, FaceRecord>, detections: seq<Detection>, n: nat,
                               data: map<Box, FaceRecord>)
    requires n <= |detections|
  {
    && data.Keys == data0.Keys + Boxes(detections, n)
    && (forall b :: b in data0 ==> data[b].look == data0[b].look)
    && (forall b :: b in data0 && data0[b].emotion.Some? ==> data[b] == data0[b])
  }

  /** The locks after the first `n` detections of a frame: every detection
      that saw the gate open left its box locked; while the gate stayed
      closed nothing locked; and a record locked in this frame holds the
      dominant emotion of its first detection past the gate. */
  ghost predicate FrameLocks(data0: map<Box, FaceRecord>, detections: seq<Detection>, clock: seq<real>, n: nat,
                             data: map<Box, FaceRecord>)
    requires n <= |detections| == |clock|
    requires forall j :: 0 <= j < |detections| ==> |detections[j].scores| > 0
  {
    && (forall j :: 0 <= j < n && IsStabilized(clock[j]) ==>
          detections[j].box in data && data[detections[j].box].emotion.Some?)
    && (GateClosedBefore(clock, n) ==>
          forall b :: b in data ==> if b in data0 then data[b] == data0[b] else data[b].emotion.None?)
    && (forall b :: b in data && data[b].emotion.Some? && Unlocked(data0, b) ==>
          LockedBy(detections, clock, n, b, data[b].emotion.value))
  }

  /** The one-shot after the first `n` detections of a frame: a spent one-shot
      stays spent and opens nothing more; an unspent one is spent exactly when
      some detection saw the gate open, and its link goes to the box of the
      first such detection. */
  ghost predicate FrameSong(played0: bool, log0: seq<string>, detections: seq<Detection>, clock: seq<real>, n: nat,
                            data: map<Box, FaceRecord>, played: bool, log: seq<string>)
    requires n <= |detections| == |clock|
  {
    && (played0 ==> played && log == log0)
    && (!played0 ==> (played <==> !GateClosedBefore(clock, n)))
    && (!played0 ==> forall j :: 0 <= j < n && FirstPastGate(clock, j) ==>
          detections[j].box in data && data[detections[j].box].songLink.Some?)
  }

  lemma FrameStart(data: map<Box, FaceRecord>, played: bool, log: seq<string>,
                   detections: seq<Detection>, clock: seq<real>)
    requires |detections| == |clock|
    requires forall j :: 0 <= j < |detections| ==> |detections[j].scores| > 0
    ensures FrameRecords(data, detections, 0, data)
    ensures FrameLocks(data, detections, clock, 0, data)
    ensures FrameSong(played, log, detections, clock, 0, data, played, log)
  {
    assert Boxes(detections, 0) == {};
  }

  /** In a frame that starts with the one-shot unused, the only record that
      ends up holding a link is that of the first detection past the gate:
      of several faces locking in the same frame, only the first gets the
      song. */
  lemma LinkGoesToFirstLock(songs: map<string, map<string, Song>>, detections: seq<Detection>, clock: seq<real>,
                            data: map<Box, FaceRecord>, played: bool, log: seq<string>, j: int, b: Box)
    requires |detections| == |clock|
    requires TrackerInvariant(songs, data, played, log)
    requires FrameSong(false, [], detections, clock, |detections|, data, played, log)
    requires FirstPastGate(clock, j)
    requires b in data && data[b].songLink.Some?
    ensures b == detections[j].box
  {
  }

  /** When the clock readings of a frame never decrease, the gate stays open
      from the first detection that sees it open, so that detection and every
      later one leave their boxes locked, whichever box each is. */
  lemma LaterDetectionsLock(data0: map<Box, FaceRecord>, detections: seq<Detection>,
                                               clock: seq<real>, data: map<Box, FaceRecord>, first: nat)
    requires |detections| == |clock|
    requires forall j :: 0 <= j < |detections| ==> |detections[j].scores| > 0
    requires forall i, j :: 0 <= i <= j < |clock| ==> clock[i] <= clock[j]
    requires FrameLocks(data0, detections, clock, |detections|, data)
    requires first < |clock| && IsStabilized(clock[first])
    ensures forall j :: first <= j < |detections| ==>
              IsStabilized(clock[j]) && detections[j].box in data && data[detections[j].box].emotion.Some?
  {
    forall j | first <= j < |detections|
      ensures IsStabilized(clock[j]) && detections[j].box in data && data[detections[j].box].emotion.Some?
    {
      GateStaysOpen(clock[first], clock[j], STABILIZATION_SECONDS);
    }
  }

  lemma FrameStepRecords(data0: map<Box, FaceRecord>, detections: seq<Detection>, n: nat,
                         data: map<Box, FaceRecord>, played: bool, log: seq<string>,
                         elapsed: real, data': map<Box, FaceRecord>, played': bool, log': seq<string>)
    requires n < |detections| && |detections[n].scores| > 0
    requires FrameRecords(data0, detections, n, data)
    requires ObserveStep(data, played, log, detections[n], elapsed, data', played', log')
    ensures FrameRecords(data0, detections, n + 1, data')
  {
    assert Boxes(detections, n + 1) == Boxes(detections, n) + {detections[n].box};
  }

  lemma FrameStepLocks(data0: map<Box, FaceRecord>, detections: seq<Detection>, clock: seq<real>, n: nat,
                       data: map<Box, FaceRecord>, played: bool, log: seq<string>,
                       data': map<Box, FaceRecord>, played': bool, log': seq<string>)
    requires n < |detections| == |clock|
    requires forall j :: 0 <= j < |detections| ==> |detections[j].scores| > 0
    requires data0.Keys <= data.Keys
    requires FrameLocks(data0, detections, clock, n, data)
    requires ObserveStep(data, played, log, detections[n], clock[n], data', played', log')
    ensures FrameLocks(data0, detections, clock, n + 1, data')
  {
    FrameStepPastGate(detections, clock, n, data, played, log, data', played', log');
    FrameStepClosed(data0, detections, clock, n, data, played, log, data', played', log');
    FrameStepLockedBy(data0, detections, clock, n, data, played, log, data', played', log');
  }

  lemma FrameStepPastGate(detections: seq<Detection>, clock: seq<real>, n: nat,
                          data: map<Box, FaceRecord>, played: bool, log: seq<string>,
                          data': map<Box, FaceRecord>, played': bool, log': seq<string>)
    requires n < |detections| == |clock|
    requires |detections[n].scores| > 0
    requires forall j :: 0 <= j < n && IsStabilized(clock[j]) ==>
               detections[j].box in data && data[detections[j].box].emotion.Some?
    requires ObserveStep(data, played, log, detections[n], clock[n], data', played', log')
    ensures forall j :: 0 <= j < n + 1 && IsStabilized(clock[j]) ==>
              detections[j].box in data' && data'[detections[j].box].emotion.Some?
  {
  }

  lemma FrameStepClosed(data0: map<Box, FaceRecord>, detections: seq<Detection>, clock: seq<real>, n: nat,
                        data: map<Box, FaceRecord>, played: bool, log: seq<string>,
                        data': map<Box, FaceRecord>, played': bool, log': seq<string>)
    requires n < |detections| == |clock|
    requires |detections[n].scores| > 0
    requires data0.Keys <= data.Keys
    requires GateClosedBefore(clock, n) ==>
               forall b :: b in data ==> if b in data0 then data[b] == data0[b] else data[b].emotion.None?
    requires ObserveStep(data, played, log, detections[n], clock[n], data', played', log')
    ensures GateClosedBefore(clock, n + 1) ==>
              forall b :: b in data' ==> if b in data0 then data'[b] == data0[b] else data'[b].emotion.None?
  {
    if GateClosedBefore(clock, n + 1) {
      assert GateClosedBefore(clock, n) && !IsStabilized(clock[n]);
    }
  }

  lemma FrameStepLockedBy(data0: map<Box, FaceRecord>, detections: seq<Detection>, clock: seq<real>, n: nat,
                          data: map<Box, FaceRecord>, played: bool, log: seq<string>,
                          data': map<Box, FaceRecord>, played': bool, log': seq<string>)
    requires n < |detections| == |clock|
    requires forall j :: 0 <= j < |detections| ==> |detections[j].scores| > 0
    requires FrameLocks(data0, detections, clock, n, data)
    requires ObserveStep(data, played, log, detections[n], clock[n], data', played', log')
    ensures forall b :: b in data' && data'[b].emotion.Some? && Unlocked(data0, b) ==>
              LockedBy(detections, clock, n + 1, b, data'[b].emotion.value)
  {
    var d := detections[n];
    forall b | b in data' && data'[b].emotion.Some? && Unlocked(data0, b)
      ensures LockedBy(detections, clock, n + 1, b, data'[b].emotion.value)
    {
      if b in data && data[b].emotion.Some? {
        assert data'[b] == data[b];
        var j :| 0 <= j < n && detections[j].box == b && IsStabilized(clock[j])
          && DominantEmotion(detections[j].scores) == data[b].emotion.value
          && forall m :: 0 <= m < j && detections[m].box == b ==> !IsStabilized(clock[m]);
        assert 0 <= j < n + 1;
      } else {
        assert b == d.box && IsStabilized(clock[n]);
        forall m | 0 <= m < n && detections[m].box == b
          ensures !IsStabilized(clock[m])
        {
        }
      }
    }
  }

  lemma FrameStepSong(played0: bool, log0: seq<string>, detections: seq<Detection>, clock: seq<real>, n: nat,
                      data: map<Box, FaceRecord>, played: bool, log: seq<string>,
                      data': map<Box, FaceRecord>, played': bool, log': seq<string>)
    requires n < |detections| == |clock|
    requires forall j :: 0 <= j < |detections| ==> |detections[j].scores| > 0
    requires LocksNeedPlayed(data, played)
    requires FrameSong(played0, log0, detections, clock, n, data, played, log)
    requires ObserveStep(data, played, log, detections[n], clock[n], data', played', log')
    ensures FrameSong(played0, log0, detections, clock, n + 1, data', played', log')
  {
    var d := detections[n];
    if !played0 {
      if FirstPastGate(clock, n) {
        assert !played;
        assert Unlocked(data, d.box);
      }
      forall j | 0 <= j < n && FirstPastGate(clock, j)
        ensures detections[j].box in data' && data'[detections[j].box].songLink.Some?
      {
        var b := detections[j].box;
        assert data[b].songLink.Some? && data[b].emotion.Some?;
      }
    }
  }

  /** Two updates of the same key are one update. */
  lemma UpdateTwice(m0: map<Box, FaceRecord>, m1: map<Box, FaceRecord>, m2: map<Box, FaceRecord>, k: Box)
    requires k in m1 && m1 == m0[k := m1[k]]
    requires k in m2 && m2 == m1[k := m2[k]]
    ensures m2 == m0[k := m2[k]]
  {
  }

  /** One more detection keeps all four frame predicates. */
  lemma FrameStep(data0: map<Box, FaceRecord>, played0: bool, log0: seq<string>,
                  detections: seq<Detection>, clock: seq<real>, n: nat,
                  data: map<Box, FaceRecord>, played: bool, log: seq<string>,
                  data': map<Box, FaceRecord>, played': bool, log': seq<string>,
                  annotations: seq<Annotation>, a: Annotation)
    requires n < |detections| == |clock| && |annotations| == n
    requires forall j :: 0 <= j < |detections| ==> |detections[j].scores| > 0
    requires LocksNeedPlayed(data, played)
    requires FrameRecords(data0, detections, n, data)
    requires FrameLocks(data0, detections, clock, n, data)
    requires FrameSong(played0, log0, detections, clock, n, data, played, log)
    requires AnnotationsSettled(data0, detections, clock, n, data, annotations)
    requires ObserveStep(data, played, log, detections[n], clock[n], data', played', log')
    requires a == Annotate(data'[detections[n].box])
    ensures FrameRecords(data0, detections, n + 1, data')
    ensures FrameLocks(data0, detections, clock, n + 1, data')
    ensures FrameSong(played0, log0, detections, clock, n + 1, data', played', log')
    ensures AnnotationsSettled(data0, detections, clock, n + 1, data', annotations + [a])
  {
    FrameStepRecords(data0, detections, n, data, played, log, clock[n], data', played', log');
    FrameStepLocks(data0, detections, clock, n, data, played, log, data', played', log');
    FrameStepSong(played0, log0, detections, clock, n, data, played, log, data', played', log');
    SettledAreLocked(data0, detections, clock, n, data);
    if !Settled(data0, detections, clock, n, detections[n].box) {
      UnsettledIsUnlocked(data0, detections, clock, n, data);
    }
    AnnotationsStep(data0, detections, clock, n, data, played, log, data', played', log', annotations, a);
  }

  /** Some detection of `box` among the first `j + 1` saw the gate open. */
  ghost predicate SeenPastGate(detections: seq<Detection>, clock: seq<real>, j: nat, box: Box)
    requires j < |detections| == |clock|
  {
    exists m :: 0 <= m <= j && detections[m].box == box && IsStabilized(clock[m])
  }

  /** At detection `j` of the frame, `box` is locked: it was locked before the
      frame, or one of its detections up to `j` saw the gate open. */
  ghost predicate Settled(data0: map<Box, FaceRecord>, detections: seq<Detection>, clock: seq<real>, j: nat, box: Box)
    requires j < |detections| == |clock|
  {
    (box in data0 && data0[box].emotion.Some?) || SeenPastGate(detections, clock, j, box)
  }

  /** Each of the first `n` annotations is the display decision on its box's
      record as it stood at that detection: a settled box shows its record,
      which has not changed since; any other box is unlocked at that point and
      shows "Stabilizing". */
  ghost predicate AnnotationsSettled(data0: map<Box, FaceRecord>, detections: seq<Detection>, clock: seq<real>,
                                     n: nat, data: map<Box, FaceRecord>, annotations: seq<Annotation>)
    requires n <= |detections| == |clock| && n <= |annotations|
  {
    forall j :: 0 <= j < n ==>
      && detections[j].box in data
      && annotations[j]
         == if Settled(data0, detections, clock, j, detections[j].box)
            then Annotate(data[detections[j].box])
            else Stabilizing
  }

  /** Every box settled at one of the first `n` detections is locked now. */
  lemma SettledAreLocked(data0: map<Box, FaceRecord>, detections: seq<Detection>, clock: seq<real>, n: nat,
                         data: map<Box, FaceRecord>)
    requires n <= |detections| == |clock|
    requires forall k :: 0 <= k < |detections| ==> |detections[k].scores| > 0
    requires FrameRecords(data0, detections, n, data)
    requires FrameLocks(data0, detections, clock, n, data)
    ensures forall j :: 0 <= j < n && Settled(data0, detections, clock, j, detections[j].box) ==>
              detections[j].box in data && data[detections[j].box].emotion.Some?
  {
    forall j | 0 <= j < n && Settled(data0, detections, clock, j, detections[j].box)
      ensures detections[j].box in data && data[detections[j].box].emotion.Some?
    {
      var b := detections[j].box;
      if !(b in data0 && data0[b].emotion.Some?) {
        var m :| 0 <= m <= j && detections[m].box == b && IsStabilized(clock[m]);
      }
    }
  }

  /** A box not settled at detection `n` has no lock in the records so far. */
  lemma UnsettledIsUnlocked(data0: map<Box, FaceRecord>, detections: seq<Detection>, clock: seq<real>, n: nat,
                            data: map<Box, FaceRecord>)
    requires n < |detections| == |clock|
    requires forall k :: 0 <= k < |detections| ==> |detections[k].scores| > 0
    requires FrameLocks(data0, detections, clock, n, data)
    requires !Settled(data0, detections, clock, n, detections[n].box)
    ensures Unlocked(data, detections[n].box)
  {
    var b := detections[n].box;
    if b in data && data[b].emotion.Some? {
      assert false;
    }
  }

  lemma AnnotationsStep(data0: map<Box, FaceRecord>, detections: seq<Detection>, clock: seq<real>, n: nat,
                        data: map<Box, FaceRecord>, played: bool, log: seq<string>,
                        data': map<Box, FaceRecord>, played': bool, log': seq<string>,
                        annotations: seq<Annotation>, a: Annotation)
    requires n < |detections| == |clock| && |annotations| == n
    requires forall j :: 0 <= j < |detections| ==> |detections[j].scores| > 0
    requires forall j :: 0 <= j < n && Settled(data0, detections, clock, j, detections[j].box) ==>
               detections[j].box in data && data[detections[j].box].emotion.Some?
    requires !Settled(data0, detections, clock, n, detections[n].box) ==> Unlocked(data, detections[n].box)
    requires AnnotationsSettled(data0, detections, clock, n, data, annotations)
    requires ObserveStep(data, played, log, detections[n], clock[n], data', played', log')
    requires a == Annotate(data'[detections[n].box])
    ensures AnnotationsSettled(data0, detections, clock, n + 1, data', annotations + [a])
  {
    var shown := annotations + [a];
    forall j | 0 <= j < n + 1
      ensures detections[j].box in data'
      ensures shown[j]
         == if Settled(data0, detections, clock, j, detections[j].box)
            then Annotate(data'[detections[j].box])
            else Stabilizing
    {
      if j < n {
        if Settled(data0, detections, clock, j, detections[j].box) {
          assert data'[detections[j].box] == data[detections[j].box];
        }
      }
    }
  }

  class FaceTracker {
    /** `face_data`: one record per box ever seen. */
    var faceData: map<Box, FaceRecord>
    /** `song_played`: the one-shot link has been used. */
    var songPlayed: bool
    /** The links passed to the browser, in order. */
    ghost var browserLog: seq<string>
    /** The database `suggest_song` consults. */
    const songs: map<string, map<string, Song>>

    ghost predicate Valid()
      reads this
    {
      TrackerInvariant(songs, faceData, songPlayed, browserLog)
    }

    /** Process start: no faces, no song, the fixed song table. */
    constructor ()
      ensures Valid()
      ensures faceData == map[] && !songPlayed && browserLog == []
      ensures songs == SONG_DATABASE
    {
      songs := SONG_DATABASE;
      faceData := map[];
      songPlayed := false;
      browserLog := [];
    }

    /** The `if face_id not in face_data` branch: a box seen for the first
        time gets a fresh record with a look drawn from the fixed list; a
        known box keeps its record. */
    method EnsureRecord(box: Box)
      requires Valid()
      modifies this
      ensures Valid()
      ensures box in old(faceData) ==> faceData == old(faceData)
      ensures box in faceData && faceData == old(faceData)[box := faceData[box]]
      ensures box !in old(faceData) ==> faceData[box] == NewRecord(faceData[box].look)
      ensures songPlayed == old(songPlayed) && browserLog == old(browserLog)
    {
      if box !in faceData {
        var pick: nat :| pick < |LOOKS|;
        InsertKeepsInvariant(songs, faceData, songPlayed, browserLog, box, AssignStableLook(pick));
        faceData := faceData[box := NewRecord(AssignStableLook(pick))];
      }
    }

    /** The body of the `if is_stabilized() and ... is None` branch: lock
        the record of `box` with a drawn age, `emotion` and the age's
        generation; if the one-shot is unused, store the suggested link,
        open it and spend the one-shot. */
    method LockRecord(box: Box, emotion: string)
      requires Valid()
      requires box in faceData && faceData[box].emotion.None?
      modifies this
      ensures Valid()
      ensures box in faceData && faceData == old(faceData)[box := faceData[box]]
      ensures faceData[box].emotion == Some(emotion) && faceData[box].look == old(faceData[box].look)
      ensures songPlayed
      ensures old(songPlayed) ==> browserLog == old(browserLog) && faceData[box].songLink.None?
      ensures !old(songPlayed) ==>
                && faceData[box].songLink == Some(Suggest(songs, emotion, faceData[box].generation.value).link)
                && browserLog == [faceData[box].songLink.value]
    {
      var roll: nat :| roll <= AgeSpan(box);
      var age := EstimateAge(box, roll);
      var locked := Lock(faceData[box], age, emotion);
      if !songPlayed {
        var song := Suggest(songs, emotion, locked.generation.value);
        LockAndLinkKeepsInvariant(songs, faceData, box, roll, emotion);
        locked := locked.(songLink := Some(song.link));
        browserLog := browserLog + [song.link];
        songPlayed := true;
      } else {
        LockKeepsInvariant(songs, faceData, browserLog, box, roll, emotion);
      }
      faceData := faceData[box := locked];
    }

    /** One iteration of the `for emotion in emotions` loop, with the clock
        read at the gate check `elapsed` seconds after start. */
    method Observe(d: Detection, elapsed: real) returns (a: Annotation)
      requires Valid()
      requires |d.scores| > 0
      modifies this
      ensures Valid()
      ensures ObserveStep(old(faceData), old(songPlayed), old(browserLog), d, elapsed, faceData, songPlayed, browserLog)
      ensures a == Annotate(faceData[d.box])
    {
      var dominant := DominantEmotion(d.scores);
      EnsureRecord(d.box);
      ghost var created := faceData;
      if IsStabilized(elapsed) && faceData[d.box].emotion.None? {
        LockRecord(d.box, dominant);
        UpdateTwice(old(faceData), created, faceData, d.box);
      }
      a := Annotate(faceData[d.box]);
    }

    /** Detection `i` of a frame, with the frame predicates carried from `i`
        to `i + 1`; `annotations` are those shown so far in the frame. */
    method ObserveInFrame(ghost data0: map<Box, FaceRecord>, ghost played0: bool, ghost log0: seq<string>,
                          detections: seq<Detection>, clock: seq<real>, i: nat,
                          ghost annotations: seq<Annotation>) returns (a: Annotation)
      requires Valid()
      requires i < |detections| == |clock| && |annotations| == i
      requires forall j :: 0 <= j < |detections| ==> |detections[j].scores| > 0
      requires FrameRecords(data0, detections, i, faceData)
      requires FrameLocks(data0, detections, clock, i, faceData)
      requires FrameSong(played0, log0, detections, clock, i, faceData, songPlayed, browserLog)
      requires AnnotationsSettled(data0, detections, clock, i, faceData, annotations)
      modifies this
      ensures Valid()
      ensures FrameRecords(data0, detections, i + 1, faceData)
      ensures FrameLocks(data0, detections, clock, i + 1, faceData)
      ensures FrameSong(played0, log0, detections, clock, i + 1, faceData, songPlayed, browserLog)
      ensures AnnotationsSettled(data0, detections, clock, i + 1, faceData, annotations + [a])
    {
      ghost var before, playedBefore, logBefore := faceData, songPlayed, browserLog;
      InvariantLocksNeedPlayed(songs, faceData, songPlayed, browserLog);
      a := Observe(detections[i], clock[i]);
      FrameStep(data0, played0, log0, detections, clock, i,
                before, playedBefore, logBefore, faceData, songPlayed, browserLog, annotations, a);
    }

    /** One frame: the detections in the classifier's order, each with the
        clock reading taken at its gate check. */
    method ProcessFrame(detections: seq<Detection>, clock: seq<real>) returns (annotations: seq<Annotation>)
      requires Valid()
      requires |clock| == |detections|
      requires forall j :: 0 <= j < |detections| ==> |detections[j].scores| > 0
      modifies this
      ensures Valid()
      ensures |annotations| == |detections|
      ensures FrameRecords(old(faceData), detections, |detections|, faceData)
      ensures FrameLocks(old(faceData), detections, clock, |detections|, faceData)
      ensures FrameSong(old(songPlayed), old(browserLog), detections, clock, |detections|, faceData, songPlayed, browserLog)
      ensures AnnotationsSettled(old(faceData), detections, clock, |detections|, faceData, annotations)
    {
      ghost var data0, played0, log0 := faceData, songPlayed, browserLog;
      annotations := [];
      FrameStart(data0, played0, log0, detections, clock);
      var i := 0;
      while i < |detections|
        invariant 0 <= i <= |detections|
        invariant |annotations| == i
        invariant Valid()
        invariant FrameRecords(data0, detections, i, faceData)
        invariant FrameLocks(data0, detections, clock, i, faceData)
        invariant FrameSong(played0, log0, detections, clock, i, faceData, songPlayed, browserLog)
        invariant AnnotationsSettled(data0, detections, clock, i, faceData, annotations)
      {
        var a := ObserveInFrame(data0, played0, log0, detections, clock, i, annotations);
        annotations := annotations + [a];
        i := i + 1;
      }
    }
  }

  /** A frame as the main loop sees it: the detector's output and the clock
      reading at each detection's gate check. */
  datatype Frame = Frame(detections: seq<Detection>, clock: seq<real>)

  ghost predicate FrameWellFormed(f: Frame) {
    && |f.clock| == |f.detections|
    && forall j :: 0 <= j < |f.detections| ==> |f.detections[j].scores| > 0
  }

  /** Some detection of the first `n` frames saw the gate open. */
  ghost predicate GateOpenedWithin(frames: seq<Frame>, n: nat)
    requires n <= |frames|
    requires forall k :: 0 <= k < |frames| ==> FrameWellFormed(frames[k])
  {
    exists k :: 0 <= k < n && !GateClosedBefore(frames[k].clock, |frames[k].clock|)
  }

  /** One more frame opened the gate in the run exactly when it, or an
      earlier frame, had a detection past the gate. */
  lemma GateOpenedStep(frames: seq<Frame>, k: nat)
    requires k < |frames|
    requires forall m :: 0 <= m < |frames| ==> FrameWellFormed(frames[m])
    ensures GateOpenedWithin(frames, k + 1)
        <==> GateOpenedWithin(frames, k) || !GateClosedBefore(frames[k].clock, |frames[k].clock|)
  {
    if GateOpenedWithin(frames, k + 1) && !GateOpenedWithin(frames, k) {
      var m :| 0 <= m < k + 1 && !GateClosedBefore(frames[m].clock, |frames[m].clock|);
      assert m == k;
    }
  }

  /** Boxes of every detection in the first `n` frames. */
  ghost function SeenBoxes(frames: seq<Frame>, n: nat): set<Box>
    requires n <= |frames|
  {
    set k, j | 0 <= k < n && 0 <= j < |frames[k].detections| :: frames[k].detections[j].box
  }

  /** One more frame adds exactly the boxes of its detections. */
  lemma SeenBoxesStep(frames: seq<Frame>, k: nat)
    requires k < |frames|
    ensures SeenBoxes(frames, k + 1) == SeenBoxes(frames, k) + Boxes(frames[k].detections, |frames[k].detections|)
  {
    var d := frames[k].detections;
    forall b | b in SeenBoxes(frames, k + 1)
      ensures b in SeenBoxes(frames, k) + Boxes(d, |d|)
    {
      var k', j :| 0 <= k' < k + 1 && 0 <= j < |frames[k'].detections| && frames[k'].detections[j].box == b;
      if k' == k {
        assert d[j].box == b;
      }
    }
  }

  /** Frame `k` of a run: carries the run's one-shot and key relations from
      the first `k` frames to the first `k + 1`. */
  method RunFrame(tracker: FaceTracker, frames: seq<Frame>, k: nat) returns (annotations: seq<Annotation>)
    requires k < |frames|
    requires forall m :: 0 <= m < |frames| ==> FrameWellFormed(frames[m])
    requires tracker.Valid()
    requires tracker.songPlayed <==> GateOpenedWithin(frames, k)
    requires tracker.faceData.Keys == SeenBoxes(frames, k)
    modifies tracker
    ensures tracker.Valid()
    ensures tracker.songPlayed <==> GateOpenedWithin(frames, k + 1)
    ensures tracker.faceData.Keys == SeenBoxes(frames, k + 1)
    ensures |annotations| == |frames[k].detections|
  {
    annotations := tracker.ProcessFrame(frames[k].detections, frames[k].clock);
    GateOpenedStep(frames, k);
    SeenBoxesStep(frames, k);
  }

  /** The main loop over a whole run: the browser is opened at most once, and
      exactly once if any detection ever saw the gate open. */
  method RunSession(frames: seq<Frame>) returns (tracker: FaceTracker, shown: seq<seq<Annotation>>)
    requires forall k :: 0 <= k < |frames| ==> FrameWellFormed(frames[k])
    ensures fresh(tracker) && tracker.Valid() && tracker.songs == SONG_DATABASE
    ensures |tracker.browserLog| <= 1
    ensures tracker.songPlayed <==> GateOpenedWithin(frames, |frames|)
    ensures tracker.faceData.Keys == SeenBoxes(frames, |frames|)
    ensures !GateOpenedWithin(frames, |frames|) ==>
              forall b :: b in tracker.faceData ==>
                tracker.faceData[b].age.None? && tracker.faceData[b].emotion.None? && tracker.faceData[b].generation.None?
    ensures |shown| == |frames|
    ensures forall k :: 0 <= k < |frames| ==> |shown[k]| == |frames[k].detections|
  {
    tracker := new FaceTracker();
    shown := [];
    var k := 0;
    while k < |frames|
      invariant 0 <= k <= |frames|
      invariant tracker.Valid()
      invariant tracker.songPlayed <==> GateOpenedWithin(frames, k)
      invariant tracker.faceData.Keys == SeenBoxes(frames, k)
      invariant |shown| == k
      invariant forall m :: 0 <= m < k ==> |shown[m]| == |frames[m].detections|
    {
      var annotations := RunFrame(tracker, frames, k);
      shown := shown + [annotations];
      k := k + 1;
    }
  }
}
