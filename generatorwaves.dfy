/**
 * The catalogue of named wave shapes a generator channel can follow, and
 * the two constants the shapes are built from.
 */
module GeneratorWaves {
  import opened Utils
  import opened CyclicalWaves

  /** The gap that turns a vertical edge into a very steep line. */
  const SMALL_AMOUNT: real := 0.00001
  /** The latest keyframe time, just short of the cycle's end. */
  const TMAX: real := 1.0 - SMALL_AMOUNT

  lemma TmaxInCycle()
    ensures 0.0 < SMALL_AMOUNT && 0.0 < TMAX < 1.0
  {
  }

  const SawtoothShape: WaveShape := WaveShape(
    "Sawtooth",
    [
      WavePoint(0.0, 0.0, 0.0),
      WavePoint(TMAX, 1.0, 0.0)
    ],
    LINEAR)

  const TriangleShape: WaveShape := WaveShape(
    "Triangle",
    [
      WavePoint(0.0, 0.0, 0.0),
      WavePoint(0.5, 1.0, 0.0)
    ],
    LINEAR)

  const SquareShape: WaveShape := WaveShape(
    "Square",
    [
      WavePoint(0.0, 1.0, 0.0),
      WavePoint(0.5 - SMALL_AMOUNT, 1.0, 0.0),
      WavePoint(0.5, 0.0, 0.0),
      WavePoint(TMAX, 0.0, 0.0)
    ],
    LINEAR)

  const ConstantShape: WaveShape := WaveShape(
    "Constant",
    [
      WavePoint(0.0, 1.0, 0.0),
      WavePoint(TMAX, 1.0, 0.0)
    ],
    LINEAR)

  const FangsShape: WaveShape := WaveShape(
    "Fangs",
    [
      WavePoint(0.0, 0.0, 0.0),
      WavePoint(0.35, 1.0, 0.0),
      WavePoint(0.5, 0.5, 0.0),
      WavePoint(0.65, 1.0, 0.0)
    ],
    LINEAR)

  const CurvyTriangleShape: WaveShape := WaveShape(
    "Curvy triangle",
    [
      WavePoint(0.0, 0.0, 0.0),
      WavePoint(0.5, 1.0, 0.0)
    ],
    HERMITE)

  const CurvyFangsShape: WaveShape := WaveShape(
    "Curvy fangs",
    [
      WavePoint(0.0, 0.0, 0.0),
      WavePoint(0.35, 1.0, 0.0),
      WavePoint(0.5, 0.5, 0.0),
      WavePoint(0.65, 1.0, 0.0)
    ],
    HERMITE)

  const CurvyTrapeziumShape: WaveShape := WaveShape(
    "Curvy trapezium",
    [
      WavePoint(0.0, 0.0, 0.0),
      WavePoint(0.4, 0.95, 0.1),
      WavePoint(0.6, 0.95, -0.1)
    ],
    HERMITE)

  const GentleAttackShape: WaveShape := WaveShape(
    "Gentle attack",
    [
      WavePoint(0.0, 0.0, 0.0),
      WavePoint(0.75, 1.0, 0.0)
    ],
    HERMITE)

  const FastAttackShape: WaveShape := WaveShape(
    "Fast attack",
    [
      WavePoint(0.0, 0.0, 0.0),
      WavePoint(0.25, 1.0, 0.0)
    ],
    HERMITE)

  const FasterAttackShape: WaveShape := WaveShape(
    "Faster attack",
    [
      WavePoint(0.0, 0.0, 0.0),
      WavePoint(0.15, 1.0, 0.0)
    ],
    HERMITE)

  const RisingTideShape: WaveShape := WaveShape(
    "Rising tide",
    [
      WavePoint(0.0, 0.0, 0.0),
      WavePoint(0.1, 0.4, 0.0),
      WavePoint(0.2, 0.2, 0.0),
      WavePoint(0.3, 0.6, 0.0),
      WavePoint(0.4, 0.4, 0.0),
      WavePoint(0.5, 0.8, 0.0),
      WavePoint(0.6, 0.6, 0.0),
      WavePoint(0.7, 1.0, 0.0),
      WavePoint(0.8, 0.8, 0.0)
    ],
    HERMITE)

  const FlourishShape: WaveShape := WaveShape(
    "Flourish",
    [
      WavePoint(0.0, 0.0, 0.0),
      WavePoint(0.5, 0.8, -0.6),
      WavePoint(0.66, 0.6, 0.3),
      WavePoint(0.86, 1.0, 0.0),
      WavePoint(0.9, 1.0, 0.0)
    ],
    HERMITE)

  const JellyShape: WaveShape := WaveShape(
    "Jelly",
    [
      WavePoint(0.0, 0.0, 0.0),
      WavePoint(0.2, 1.0, 0.0),
      WavePoint(0.3, 0.7, 0.0),
      WavePoint(0.4, 1.0, 0.0),
      WavePoint(0.5, 0.7, 0.0),
      WavePoint(0.6, 1.0, 0.0),
      WavePoint(0.7, 0.7, 0.0),
      WavePoint(0.8, 1.0, 0.0)
    ],
    HERMITE)

  const TapSlideShape: WaveShape := WaveShape(
    "Tap + slide",
    [
      WavePoint(0.0, 1.0, 0.0),
      WavePoint(0.1 - SMALL_AMOUNT, 1.0, 0.0),
      WavePoint(0.1, 0.0, 0.0),
      WavePoint(0.2 - SMALL_AMOUNT, 0.0, 0.0),
      WavePoint(0.2, 1.0, 0.0),
      WavePoint(0.3 - SMALL_AMOUNT, 1.0, 0.0),
      WavePoint(0.3, 0.0, 0.0),
      WavePoint(0.4 - SMALL_AMOUNT, 0.0, 0.0),
      WavePoint(0.4, 1.0, 0.0),
      WavePoint(0.5, 1.0, 0.0),
      WavePoint(TMAX, 0.0, 0.0)
    ],
    LINEAR)

  const DoubleTimeShape: WaveShape := WaveShape(
    "Double time",
    [
      WavePoint(0.0, 0.0, 0.0),
      WavePoint(0.25, 1.0, 0.0),
      WavePoint(0.5, 0.0, 0.0),
      WavePoint(0.625, 1.0, 0.0),
      WavePoint(0.75, 0.0, 0.0),
      WavePoint(0.875, 1.0, 0.0)
    ],
    HERMITE)

  const TripleTroubleShape: WaveShape := WaveShape(
    "Triple trouble",
    [
      WavePoint(0.0, 0.0, 0.0),
      WavePoint(0.10, 0.98, 0.05),
      WavePoint(0.14, 1.0, 0.0),
      WavePoint(0.28, 0.0, 0.0),
      WavePoint(0.38, 0.98, 0.05),
      WavePoint(0.42, 1.0, 0.0),
      WavePoint(0.56, 0.0, 0.0),
      WavePoint(0.66, 0.98, 0.05),
      WavePoint(0.7, 1.0, 0.0),
      WavePoint(0.84, 0.0, 0.0)
    ],
    HERMITE)

  const StepsShape: WaveShape := WaveShape(
    "Steps",
    [
      WavePoint(0.0, 0.0, 0.0),
      WavePoint(0.2 - SMALL_AMOUNT, 0.0, 0.0),
      WavePoint(0.2, 0.25, 0.0),
      WavePoint(0.4 - SMALL_AMOUNT, 0.25, 0.0),
      WavePoint(0.4, 0.5, 0.0),
      WavePoint(0.6 - SMALL_AMOUNT, 0.5, 0.0),
      WavePoint(0.6, 0.75, 0.0),
      WavePoint(0.8 - SMALL_AMOUNT, 0.75, 0.0),
      WavePoint(0.8, 1.0, 0.0),
      WavePoint(TMAX, 1.0, 0.0)
    ],
    LINEAR)

  /** `generatorWaveShapes`, in catalogue order. */
  const GeneratorWaveShapes: seq<WaveShape> := [
    SawtoothShape,
    TriangleShape,
    SquareShape,
    ConstantShape,
    FangsShape,
    CurvyTriangleShape,
    CurvyFangsShape,
    CurvyTrapeziumShape,
    GentleAttackShape,
    FastAttackShape,
    FasterAttackShape,
    RisingTideShape,
    FlourishShape,
    JellyShape,
    TapSlideShape,
    DoubleTimeShape,
    TripleTroubleShape,
    StepsShape
  ]

  /** Every catalogue shape meets the `CyclicalWave` constructor's checks. */
  lemma CatalogueValid()
    ensures |GeneratorWaveShapes| == 18
    ensures forall i | 0 <= i < |GeneratorWaveShapes| :: ValidShape(GeneratorWaveShapes[i])
  {
    CatalogueValidPart1();
    CatalogueValidPart2();
    CatalogueValidPart3();
    CatalogueValidPart4();
    CatalogueValidPart5();
  }

  lemma CatalogueValidPart1()
    ensures ValidShape(SawtoothShape)
    ensures ValidShape(TriangleShape)
    ensures ValidShape(SquareShape)
    ensures ValidShape(ConstantShape)
    ensures ValidShape(FangsShape)
  {
  }

  lemma CatalogueValidPart2()
    ensures ValidShape(CurvyTriangleShape)
    ensures ValidShape(CurvyFangsShape)
    ensures ValidShape(CurvyTrapeziumShape)
    ensures ValidShape(GentleAttackShape)
    ensures ValidShape(FastAttackShape)
    ensures ValidShape(FasterAttackShape)
  {
  }

  lemma CatalogueValidPart3()
    ensures ValidShape(RisingTideShape)
    ensures ValidShape(FlourishShape)
    ensures ValidShape(JellyShape)
  {
  }

  lemma CatalogueValidPart4()
    ensures ValidShape(TapSlideShape)
    ensures ValidShape(DoubleTimeShape)
  {
  }

  lemma CatalogueValidPart5()
    ensures ValidShape(TripleTroubleShape)
    ensures ValidShape(StepsShape)
  {
  }

  /** "Constant" samples 1 at every time of every cycle. */
  lemma ConstantIsOne(wave: CyclicalWave, time: real)
    requires wave.Valid() && wave.shape == ConstantShape && time >= 0.0
    ensures wave.GetPosition(time) == 1.0
  {
    if CyclePhase(time) <= TMAX {
      FlatSegment(wave, time, 0, 1.0);
    } else {
      FlatWrap(wave, time, 1.0);
    }
  }

  /** "Square" is high for the first half of the cycle, up to its steep edge. */
  lemma SquareHigh(wave: CyclicalWave, time: real)
    requires wave.Valid() && wave.shape == SquareShape
    requires 0.0 <= CyclePhase(time) <= 0.5 - SMALL_AMOUNT
    ensures wave.GetPosition(time) == 1.0
  {
    FlatSegment(wave, time, 0, 1.0);
  }

  /** "Square" is low from the middle of the cycle to its last keyframe. */
  lemma SquareLow(wave: CyclicalWave, time: real)
    requires wave.Valid() && wave.shape == SquareShape
    requires 0.5 <= CyclePhase(time) <= TMAX
    ensures wave.GetPosition(time) == 0.0
  {
    FlatSegment(wave, time, 2, 0.0);
  }
}
