# Emotion-based song player: a verified model of its tracker

`EmotionBasedSongPlayer.py` reads webcam frames and asks an emotion classifier
for the faces in each one. For every detected face it keeps a record keyed by
the face's exact bounding box. The record gets a random "look" comment when
the box is first seen. Once four seconds have passed since process start, the
first detection of that box locks three things for good: an age drawn from
the box-area bracket, the generation of that age, and the dominant emotion.
The first lock of the whole process also looks up a song for
(generation, emotion). It stores that link in the record, hands it to the
browser, and raises the process-wide `song_played` flag. After that, no
other lock ever opens a link again.

This project models that core in Dafny:

- `heuristics.dfy` (module `Heuristics`) holds the pure helpers:
  - `estimate_age` as the area brackets, with the random draw as a `roll` input;
  - `categorize_generation`;
  - `assign_stable_look`, as a choice from the ten comments;
  - the `is_stabilized` gate.
- `songs.dfy` (module `Songs`) holds the `suggest_song` table with all sixteen
  entries, the `("Unknown", "")` fallback and ASCII `str.lower`.
- `tracker.dfy` (module `Tracker`) holds the loop body of lines 94-148 as the
  class `FaceTracker`:
  - `faceData` is `face_data`, a `map` from box to record;
  - `songPlayed` is `song_played`;
  - a ghost `browserLog` records every `webbrowser.open` call;
  - the methods `EnsureRecord`, `LockRecord`, `Observe` (one detection) and
    `ProcessFrame` (one frame) update these fields;
  - `RunSession` runs a whole sequence of frames.

The tracker's invariant, `TrackerInvariant`, states that:
- every record is consistent: age, emotion and generation are set together;
  the age comes from its box's bracket; the generation is the one of that age;
  a stored link is the suggestion for the locked values;
- the browser was called at most once, exactly when `song_played` is set;
- any locked record implies `song_played`;
- exactly one record holds the link the browser received.

The model follows the code's own behaviour at three points worth noting:
- The link is passed to the browser even when it is the empty fallback link,
  and the one-shot is still spent.
- An empty score map makes `max` raise, so the model requires non-empty
  scores.
- The four-second gate counts from process start, not from a face's first
  sighting.

## Model

| member | source | states |
|---|---|---|
| Heuristics.EstimateAge | EmotionBasedSongPlayer.py:17-25 | The age is in [25,45] when the area exceeds 50000, in [18,25] when it is in (30000, 50000], and in [12,18] otherwise, including zero and negative areas. |
| Heuristics.EstimateAgeCoversBracket | EmotionBasedSongPlayer.py:17-25 | The possible draws are exactly the inclusive bracket of the box's area: every age in it is produced by some roll, and no age outside it. |
| Heuristics.CategorizeGeneration | EmotionBasedSongPlayer.py:28-36 | Every integer age gets one of the four labels. Each label holds exactly on its bracket: at most 24, 25..40, 41..56, above 56. Upper bounds are inclusive. |
| Heuristics.CategorizeGenerationMonotone | EmotionBasedSongPlayer.py:28-36 | An older age never falls in a younger generation. |
| Heuristics.GenerationOfEstimatedAge | EmotionBasedSongPlayer.py:118-120 | Composed as the lock composes them, estimated age and generation never give "Boomer". A small box gives "Gen Z"; a middle box "Gen Z" or "Millennial"; a large box "Millennial" or "Gen X". |
| Heuristics.AssignStableLook | EmotionBasedSongPlayer.py:39-41 | The comment is one of the ten fixed comments and is non-empty. |
| Heuristics.IsStabilized | EmotionBasedSongPlayer.py:80-81 | The gate is open exactly when strictly more than `duration` seconds have passed since start; `duration` defaults to 4. |
| Heuristics.GateStaysOpen | EmotionBasedSongPlayer.py:80-81 | If the gate is open at one clock reading, it is open at every later reading; if it is closed later, it was closed before. |
| Songs.Lower | EmotionBasedSongPlayer.py:75 | The result has the input's length, and each character is the lower-case form of the input's character. No letter A-Z remains. |
| Songs.LowerIdempotent | EmotionBasedSongPlayer.py:75 | Lower-casing a lower-cased label changes nothing. |
| Songs.Suggest | EmotionBasedSongPlayer.py:74-77 | Two `.get` lookups with defaults. A present generation whose sub-table holds the lower-cased emotion gives that entry; any other case gives ("Unknown", ""). |
| Songs.SuggestSong | EmotionBasedSongPlayer.py:44-77 | The link is non-empty exactly when the generation is one of the four and the lower-cased emotion is happy, sad, angry or neutral. In that case the result is that table entry; otherwise it is ("Unknown", ""). |
| Songs.SuggestSongIgnoresCaseAndAge | EmotionBasedSongPlayer.py:44-77 | The suggestion is the same for any case of the emotion and for any age argument. |
| Songs.MillennialHappySuggestion | EmotionBasedSongPlayer.py:53-54 | The classifier-style label "Happy" for a Millennial finds the "Uptown Funk" entry with its link. |
| Tracker.DominantIndex | EmotionBasedSongPlayer.py:102 | The index of the first score that no other score exceeds. Its score is maximal, and every earlier entry scores strictly lower, as `max` keeps the first maximal key. |
| Tracker.DominantEmotion | EmotionBasedSongPlayer.py:102 | The label of an entry whose score no other entry exceeds. Of several such entries, it is the first in the classifier's order. |
| Tracker.Lock | EmotionBasedSongPlayer.py:118-125 | The look and link are kept, and the age, the emotion and the generation of that age are stored, whatever the emotion. A non-empty emotion then displays as locked with the given age and that age's generation. An empty emotion still displays "Stabilizing". |
| Tracker.Annotate | EmotionBasedSongPlayer.py:136-148 | The stored fields are shown exactly when the stored emotion is truthy (set and non-empty); otherwise "Stabilizing" is shown. |
| Tracker.LockedAnnotationConsistent | EmotionBasedSongPlayer.py:118-125 | A shown locked annotation has an age in 12..45 and the generation of that age, never "Boomer", and a look from the fixed list. |
| Tracker.StoredLinkIsSuggestion | EmotionBasedSongPlayer.py:128-132 | Over the fixed table, a stored link is `suggest_song`'s link for the record's locked emotion, generation and age, and it is the one link the browser received. |
| Tracker.InsertKeepsInvariant | EmotionBasedSongPlayer.py:105-113 | Adding a fresh record (nothing locked, no link, a look from the list) for a new box keeps the tracker invariant. |
| Tracker.LockKeepsInvariant | EmotionBasedSongPlayer.py:116-125 | Locking an unlocked record after the one-shot is spent keeps the invariant and opens nothing. |
| Tracker.LockAndLinkKeepsInvariant | EmotionBasedSongPlayer.py:116-133 | The first lock of the process keeps the invariant. It stores the suggested link, and that link is the one browser call. |
| Tracker.LinkGoesToFirstLock | EmotionBasedSongPlayer.py:94-133 | In a frame that starts with the one-shot unused, the only record holding a link belongs to the frame's first detection past the gate. Other faces locking in the same frame get none. |
| Tracker.LaterDetectionsLock | EmotionBasedSongPlayer.py:116-125 | Within a frame whose clock readings never decrease, every detection from the first one past the gate onward leaves its box locked. |
| Tracker.FrameStep | EmotionBasedSongPlayer.py:94-148 | One more detection of a frame carries the four frame relations (records, locks, one-shot, shown annotations) from `n` detections to `n + 1`. |
| Tracker.FaceTracker.constructor | EmotionBasedSongPlayer.py:12-14 | At process start: no records, `song_played` false, no browser call, the fixed song table; the invariant holds. |
| Tracker.FaceTracker.EnsureRecord | EmotionBasedSongPlayer.py:105-113 | A known box keeps its record and the map is unchanged. A new box gets a fresh record with a look from the list. Nothing else changes, and the invariant is kept. |
| Tracker.FaceTracker.LockRecord | EmotionBasedSongPlayer.py:116-133 | Only this box's record changes: it takes the given emotion, keeps its look, and `song_played` becomes true. If the flag was already set, the log is unchanged and no link is stored. Otherwise the record stores `suggest_song`'s link, even when empty, and the log becomes exactly that link. |
| Tracker.FaceTracker.Observe | EmotionBasedSongPlayer.py:95-148 | One detection. Its box gets a record and no other record changes. Before the gate, or on a locked record, nothing changes beyond record creation. Past the gate, an unlocked record locks the dominant emotion, and the flag and log change only for the first lock. The annotation is the display decision on the record. |
| Tracker.FaceTracker.ObserveInFrame | EmotionBasedSongPlayer.py:94-148 | The same detection seen as step `i` of a frame: the frame relations hold after `i + 1` detections. |
| Tracker.FaceTracker.ProcessFrame | EmotionBasedSongPlayer.py:94-148 | After a frame: see the list below the table. |
| Tracker.RunFrame | EmotionBasedSongPlayer.py:83-148 | One pass of the main loop carries the run's relations from `k` frames to `k + 1`. The one-shot is spent exactly when some detection so far saw the gate open, and the records are exactly the boxes seen so far. One annotation is shown per detection. |
| Tracker.RunSession | EmotionBasedSongPlayer.py:83-155 | Over any sequence of frames, the browser is called at most once. `song_played` holds exactly when some detection saw the gate open. The records are exactly the boxes ever seen. If the gate never opened, no record has an age, emotion or generation. One annotation is shown per detection. |

`Tracker.FaceTracker.ProcessFrame` guarantees, after a frame:
- No record is removed, and the only new keys are the frame's boxes.
- Looks are kept, and records locked before the frame are untouched.
- Every detection past the gate leaves its box locked.
- While the gate stayed closed, nothing locked.
- A record locked in the frame holds the dominant emotion of its box's first detection past the gate.
- A spent one-shot stays spent and opens nothing.
- An unspent one-shot is spent exactly when some detection passed the gate. Its link goes to the box of the first such detection.
- Each shown annotation is the display decision on its box's final record when that box was locked before the frame, or some detection of it up to this one saw the gate open. Otherwise it is "Stabilizing".
- The invariant is kept.

## Left out

- Webcam capture, frame reading, `cv2` drawing, `imshow`, `waitKey` and teardown (lines 8, 85-88, 99, 142-159) are I/O and rendering. A run is a finite sequence of frames, so a failed read or the 'q' key only makes that sequence shorter.
- The FER classifier (line 91) is a foreign library. Its output is the input: a box and an ordered list of (emotion, score) pairs per detection.
- Floating-point scores: scores are integers, because only their order matters to `max`.
- `Tracker.DominantIndex`: an empty score map makes `max` raise, so `Observe` and `ProcessFrame` require non-empty score lists instead of modelling the exception.
- `time.time()` (lines 13, 81): each detection comes with its own reading of seconds since start, because `is_stabilized` reads the clock once per detection. Readings are not assumed to increase.
- `random.randint` and `random.choice`: a `roll` input selects the drawn value, and the methods pick it nondeterministically. The distribution is not modelled.
- `webbrowser.open`: modelled as an append to the ghost `browserLog`. What the browser does is not modelled.
- The song title that `suggest_song` returns is discarded by the loop, and by the model too.
- The on-screen text and coordinates: only the decision between locked fields and "Stabilizing", with the fields shown, is modelled.
- `Songs.Lower`: `str.lower` is modelled for ASCII letters only. Unicode case mapping is not.
- `Songs.Suggest` does not take the age argument, which `suggest_song` never reads. The tracker consults the table through its `songs` constant, which the constructor fixes to `Songs.SONG_DATABASE`.
- `is_stabilized`'s `duration` parameter defaults to 4 seconds and is modelled as a real number of seconds.
