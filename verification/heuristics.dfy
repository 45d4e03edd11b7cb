/** The pure helpers of the emotion-based song player: the age heuristic on the
    face box, the generation brackets, the fixed look comments and the
    stabilisation gate. Randomness (`random.randint`, `random.choice`) is an
    input: a `roll` that selects one of the values the library call could draw. */
module Heuristics {

  /** A face bounding box (x, y, w, h) as the detector reports it; the tracker
      also uses it, unchanged, as the identity of the face. */
  datatype Box = Box(x: int, y: int, w: int, h: int)

  function Area(box: Box): int {
    box.w * box.h
  }

  /** An inclusive range [lo, hi], as `random.randint(lo, hi)` draws from. */
  datatype AgeRange = AgeRange(lo: int, hi: int)

  /** The age bracket chosen by face area: adult, young adult, teenager. */
  function AgeBracket(area: int): AgeRange {
    if area > 50000 then AgeRange(25, 45)
    else if area > 30000 then AgeRange(18, 25)
    else AgeRange(12, 18)
  }

  /** Number of values beyond the lowest one that the bracket's draw can take. */
  function AgeSpan(box: Box): nat {
    AgeBracket(Area(box)).hi - AgeBracket(Area(box)).lo
  }

  /** `estimate_age`: the draw of `random.randint` is the `roll`-th value of
      the bracket. */
  function EstimateAge(box: Box, roll: nat): (age: int)
    requires roll <= AgeSpan(box)
    ensures Area(box) > 50000 ==> 25 <= age <= 45
    ensures 30000 < Area(box) <= 50000 ==> 18 <= age <= 25
    ensures Area(box) <= 30000 ==> 12 <= age <= 18
  {
    AgeBracket(Area(box)).lo + roll
  }

  /** Every age of the bracket is a possible draw, and nothing else is. */
  lemma EstimateAgeCoversBracket(box: Box, age: int)
    ensures (exists roll: nat :: roll <= AgeSpan(box) && EstimateAge(box, roll) == age)
            <==> AgeBracket(Area(box)).lo <= age <= AgeBracket(Area(box)).hi
  {
    var r := AgeBracket(Area(box));
    if r.lo <= age <= r.hi {
      var roll: nat := age - r.lo;
      assert EstimateAge(box, roll) == age;
    }
  }

  const GEN_Z := "Gen Z"
  const MILLENNIAL := "Millennial"
  const GEN_X := "Gen X"
  const BOOMER := "Boomer"

  /** The four generation labels, youngest first. */
  const GENERATIONS: seq<string> := [GEN_Z, MILLENNIAL, GEN_X, BOOMER]

  /** `categorize_generation`: a partition of all integers into four
      brackets, each closed at its upper end. */
  function CategorizeGeneration(age: int): (generation: string)
    ensures generation in GENERATIONS
    ensures generation == GEN_Z <==> age <= 24
    ensures generation == MILLENNIAL <==> 25 <= age <= 40
    ensures generation == GEN_X <==> 41 <= age <= 56
    ensures generation == BOOMER <==> age > 56
  {
    if age <= 24 then GEN_Z
    else if age <= 40 then MILLENNIAL
    else if age <= 56 then GEN_X
    else BOOMER
  }

  /** Position of a generation label in GENERATIONS (youngest is 0). */
  function GenerationRank(generation: string): nat
    requires generation in GENERATIONS
  {
    if generation == GEN_Z then 0
    else if generation == MILLENNIAL then 1
    else if generation == GEN_X then 2
    else 3
  }

  /** An older age never falls in a younger generation. */
  lemma CategorizeGenerationMonotone(a: int, b: int)
    requires a <= b
    ensures GenerationRank(CategorizeGeneration(a)) <= GenerationRank(CategorizeGeneration(b))
  {
  }

  /** Composed as the lock does, the estimated age decides the generation
      per area bracket, and "Boomer" is never reached. */
  lemma GenerationOfEstimatedAge(box: Box, roll: nat)
    requires roll <= AgeSpan(box)
    ensures var g := CategorizeGeneration(EstimateAge(box, roll));
      && g != BOOMER
      && (Area(box) <= 30000 ==> g == GEN_Z)
      && (30000 < Area(box) <= 50000 ==> g == GEN_Z || g == MILLENNIAL)
      && (Area(box) > 50000 ==> g == MILLENNIAL || g == GEN_X)
  {
  }

  /** The ten appearance comments `assign_stable_look` chooses from. */
  const LOOKS: seq<string> :=
    ["Appealing", "Handsome", "Beautiful", "Pretty", "Dashing",
     "Charming", "Elegant", "Stunning", "Graceful", "Radiant"]

  /** `assign_stable_look`: the draw of `random.choice` is the `roll`-th comment. */
  function AssignStableLook(roll: nat): (look: string)
    requires roll < |LOOKS|
    ensures look in LOOKS && look != ""
  {
    LOOKS[roll]
  }

  /** Seconds the gate stays closed after process start. */
  const STABILIZATION_SECONDS: real := 4.0

  /** `is_stabilized`: the clock has moved strictly past the duration;
      `elapsed` is the clock reading minus the start time. */
  predicate IsStabilized(elapsed: real, duration: real := STABILIZATION_SECONDS) {
    elapsed > duration
  }

  /** Once the gate is open at some reading it stays open at every later one. */
  lemma GateStaysOpen(earlier: real, later: real, duration: real)
    requires earlier <= later
    ensures IsStabilized(earlier, duration) ==> IsStabilized(later, duration)
    ensures !IsStabilized(later, duration) ==> !IsStabilized(earlier, duration)
  {
  }
}
