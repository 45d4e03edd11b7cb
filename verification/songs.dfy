/** The static song table of `suggest_song`: a generation and a lower-cased
    emotion select a (title, link) pair, with a fixed fallback. */
module Songs {
  import opened Heuristics

  datatype Song = Song(title: string, link: string)

  /** The entry returned for any pair the table does not hold. */
  const UNKNOWN_SONG := Song("Unknown", "")

  /** The emotion keys of every generation's sub-table. */
  const EMOTIONS: set<string> := {"happy", "sad", "angry", "neutral"}

  /** The table of `suggest_song`: generation, then lower-case emotion, to a
      (title, link) pair. */
  const SONG_DATABASE: map<string, map<string, Song>> := map[
    GEN_Z := map[
      "happy" := Song("Blinding Lights - The Weeknd", "https://www.youtube.com/watch?v=4NRXx6U8ABQ"),
      "sad" := Song("Someone You Loved - Lewis Capaldi", "https://www.youtube.com/watch?v=bCuhuePlP8o"),
      "angry" := Song("bad guy - Billie Eilish", "https://www.youtube.com/watch?v=DyDfgMOUjCI"),
      "neutral" := Song("Levitating - Dua Lipa", "https://www.youtube.com/watch?v=TUVcZfQe-Kw")
    ],
    MILLENNIAL := map[
      "happy" := Song("Uptown Funk - Mark Ronson ft. Bruno Mars", "https://www.youtube.com/watch?v=OPf0YbXqDm0"),
      "sad" := Song("Fix You - Coldplay", "https://www.youtube.com/watch?v=k4V3Mo61fJM"),
      "angry" := Song("Rolling in the Deep - Adele", "https://www.youtube.com/watch?v=rYEDA3JcQqw"),
      "neutral" := Song("Happy - Pharrell Williams", "https://www.youtube.com/watch?v=ZbZSe6N_BXs")
    ],
    GEN_X := map[
      "happy" := Song("Don't Stop Believin' - Journey", "https://www.youtube.com/watch?v=1k8craCGpgs"),
      "sad" := Song("Tears in Heaven - Eric Clapton", "https://www.youtube.com/watch?v=JxPj3GAYYZ0"),
      "angry" := Song("Smells Like Teen Spirit - Nirvana", "https://www.youtube.com/watch?v=hTWKbfoikeg"),
      "neutral" := Song("Take On Me - a-ha", "https://www.youtube.com/watch?v=djV11Xbc914")
    ],
    BOOMER := map[
      "happy" := Song("Here Comes The Sun - The Beatles", "https://www.youtube.com/watch?v=KQetemT1sWc"),
      "sad" := Song("Yesterday - The Beatles", "https://www.youtube.com/watch?v=jo505ZyaCbA"),
      "angry" := Song("Born to Be Wild - Steppenwolf", "https://www.youtube.com/watch?v=egMWlD3fLJ8"),
      "neutral" := Song("Hotel California - Eagles", "https://www.youtube.com/watch?v=EqPtz5qN7HM")
    ]
  ]

  /** `str.lower` on one character, for the ASCII letters. */
  function LowerChar(c: char): char {
    if 'A' <= c <= 'Z' then (c as int - 'A' as int + 'a' as int) as char else c
  }

  /** `str.lower`, character by character: every letter A-Z becomes its
      lower-case form, every other character stays. */
  function Lower(s: string): (r: string)
    ensures |r| == |s|
    ensures forall i :: 0 <= i < |s| ==> r[i] == LowerChar(s[i])
    ensures forall i :: 0 <= i < |r| ==> !('A' <= r[i] <= 'Z')
  {
    if s == [] then [] else [LowerChar(s[0])] + Lower(s[1..])
  }

  /** Lower-casing twice is lower-casing once. */
  lemma {:induction false} LowerIdempotent(s: string)
    ensures Lower(Lower(s)) == Lower(s)
  {
    if s != [] {
      var l := Lower(s);
      assert l[0] == LowerChar(s[0]) && l[1..] == Lower(s[1..]);
      LowerIdempotent(s[1..]);
      assert Lower(l) == [LowerChar(l[0])] + Lower(l[1..]);
    }
  }

  /** The lookup of `suggest_song` in a two-level song database: the
      generation's sub-table, or an empty one when the generation is missing,
      then the lower-cased emotion in it, or UNKNOWN_SONG when that misses. */
  function Suggest(database: map<string, map<string, Song>>, emotion: string, generation: string): (song: Song)
    ensures generation in database && Lower(emotion) in database[generation] ==>
              song == database[generation][Lower(emotion)]
    ensures !(generation in database && Lower(emotion) in database[generation]) ==> song == UNKNOWN_SONG
  {
    var generationSongs := if generation in database then database[generation] else map[];
    var key := Lower(emotion);
    if key in generationSongs then generationSongs[key] else UNKNOWN_SONG
  }

  /** `suggest_song` over the fixed table: a real link exactly for a known
      generation and an emotion that lower-cases to a table key; otherwise the
      fallback. The age is not consulted. */
  function SuggestSong(emotion: string, generation: string, age: int): (song: Song)
    ensures song.link != "" <==> generation in GENERATIONS && Lower(emotion) in EMOTIONS
    ensures generation in GENERATIONS && Lower(emotion) in EMOTIONS ==>
              song == SONG_DATABASE[generation][Lower(emotion)]
    ensures song.link == "" ==> song == UNKNOWN_SONG
  {
    Suggest(SONG_DATABASE, emotion, generation)
  }

  /** The suggestion depends neither on the case of the emotion nor on the age. */
  lemma SuggestSongIgnoresCaseAndAge(emotion: string, generation: string, age: int, otherAge: int)
    ensures SuggestSong(emotion, generation, age) == SuggestSong(Lower(emotion), generation, otherAge)
  {
    LowerIdempotent(emotion);
  }

  /** A capitalised classifier label still finds the Millennial "happy" entry. */
  lemma MillennialHappySuggestion(age: int)
    ensures SuggestSong("Happy", MILLENNIAL, age)
         == Song("Uptown Funk - Mark Ronson ft. Bruno Mars", "https://www.youtube.com/watch?v=OPf0YbXqDm0")
  {
    var l := Lower("Happy");
    assert l[0] == 'h' && l[1] == 'a' && l[2] == 'p' && l[3] == 'p' && l[4] == 'y';
    assert l == "happy";
  }
}
