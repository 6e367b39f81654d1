/**
 * The decorative overlay: which decorations a weather type switches on
 * (substring tests, not exclusive), the particle arrays the effect
 * regenerates from a random source, and what the overlay renders.
 *
 * `Math.random` is a parameter `random: nat -> real`; `random(k)` is the
 * k-th value drawn, counted from the start of the effect (or of the
 * render), in the order the source draws them.
 */
module WeatherAnimations {

  import opened Text
  import opened Wrappers

  const RainDropCount: nat := 150
  const CloudCount: nat := 5
  const SnowFlakeCount: nat := 50

  /** Random values each particle draws: rain (left, delay), cloud (top, size, delay), snow (left, size, delay). */
  const RainDrawsPerDrop: nat := 2
  const CloudDrawsPerShape: nat := 3
  const SnowDrawsPerFlake: nat := 3

  // The decoration flags, one `includes` test (or two) each.

  predicate ShowsRain(weatherType: string) {
    Contains(weatherType, "rain") || Contains(weatherType, "drizzle")
  }

  predicate ShowsClouds(weatherType: string) {
    Contains(weatherType, "cloud")
  }

  predicate ShowsSnow(weatherType: string) {
    Contains(weatherType, "snow")
  }

  predicate ShowsSun(weatherType: string) {
    Contains(weatherType, "clear")
  }

  predicate ShowsLightning(weatherType: string) {
    Contains(weatherType, "thunder") || Contains(weatherType, "storm")
  }

  /** A source of `Math.random` values: every draw lies in [0, 1). */
  ghost predicate UnitSource(random: nat -> real) {
    forall k: nat :: 0.0 <= random(k) < 1.0
  }

  datatype RainDrop = RainDrop(id: nat, left: real, delay: real)
  datatype CloudShape = CloudShape(id: nat, top: real, size: real, delay: real)
  datatype SnowFlake = SnowFlake(id: nat, left: real, size: real, delay: real)

  /** The three state arrays of the component. */
  datatype Particles = Particles(rainDrops: seq<RainDrop>, clouds: seq<CloudShape>, snowFlakes: seq<SnowFlake>)

  // Well-formed arrays: the generated length, ids 0..n-1 in order, each field in its range.

  ghost predicate RainInRange(drops: seq<RainDrop>) {
    forall i :: 0 <= i < |drops| ==>
      && drops[i].id == i
      && 0.0 <= drops[i].left < 100.0
      && 0.0 <= drops[i].delay < 2.0
  }

  ghost predicate CloudsInRange(clouds: seq<CloudShape>) {
    forall i :: 0 <= i < |clouds| ==>
      && clouds[i].id == i
      && 10.0 <= clouds[i].top < 40.0
      && 60.0 <= clouds[i].size < 140.0
      && 0.0 <= clouds[i].delay < 20.0
  }

  ghost predicate SnowInRange(flakes: seq<SnowFlake>) {
    forall i :: 0 <= i < |flakes| ==>
      && flakes[i].id == i
      && 0.0 <= flakes[i].left < 100.0
      && 2.0 <= flakes[i].size < 6.0
      && 0.0 <= flakes[i].delay < 3.0
  }

  /** The rain `Array.from`: drop `i` draws its left offset (%) and its delay (s). */
  function GenerateRain(random: nat -> real, from: nat): (drops: seq<RainDrop>)
    ensures |drops| == RainDropCount
    ensures forall i :: 0 <= i < |drops| ==> drops[i].id == i
  {
    seq(RainDropCount, i requires 0 <= i < RainDropCount =>
      RainDrop(i, random(from + RainDrawsPerDrop * i) * 100.0,
                  random(from + RainDrawsPerDrop * i + 1) * 2.0))
  }

  /** The cloud `Array.from`: shape `i` draws its top (%), its size (px) and its delay (s). */
  function GenerateClouds(random: nat -> real, from: nat): (clouds: seq<CloudShape>)
    ensures |clouds| == CloudCount
    ensures forall i :: 0 <= i < |clouds| ==> clouds[i].id == i
  {
    seq(CloudCount, i requires 0 <= i < CloudCount =>
      CloudShape(i, random(from + CloudDrawsPerShape * i) * 30.0 + 10.0,
                    random(from + CloudDrawsPerShape * i + 1) * 80.0 + 60.0,
                    random(from + CloudDrawsPerShape * i + 2) * 20.0))
  }

  /** The snow `Array.from`: flake `i` draws its left offset (%), its size (px) and its delay (s). */
  function GenerateSnow(random: nat -> real, from: nat): (flakes: seq<SnowFlake>)
    ensures |flakes| == SnowFlakeCount
    ensures forall i :: 0 <= i < |flakes| ==> flakes[i].id == i
  {
    seq(SnowFlakeCount, i requires 0 <= i < SnowFlakeCount =>
      SnowFlake(i, random(from + SnowDrawsPerFlake * i) * 100.0,
                   random(from + SnowDrawsPerFlake * i + 1) * 4.0 + 2.0,
                   random(from + SnowDrawsPerFlake * i + 2) * 3.0))
  }

  /** With draws in [0, 1), every generated field lies in its documented range. */
  lemma GeneratedParticlesInRange(random: nat -> real, from: nat)
    requires UnitSource(random)
    ensures RainInRange(GenerateRain(random, from))
    ensures CloudsInRange(GenerateClouds(random, from))
    ensures SnowInRange(GenerateSnow(random, from))
  {
  }

  // Each generator reads only its own window of draws: 300 for rain, 15 for clouds, 150 for snow.

  lemma RainReadsOnlyItsDraws(r1: nat -> real, r2: nat -> real, from: nat)
    requires forall k: nat :: from <= k < from + 300 ==> r1(k) == r2(k)
    ensures GenerateRain(r1, from) == GenerateRain(r2, from)
  {
    forall i | 0 <= i < RainDropCount ensures GenerateRain(r1, from)[i] == GenerateRain(r2, from)[i] {
      assert r1(from + 2 * i) == r2(from + 2 * i) && r1(from + 2 * i + 1) == r2(from + 2 * i + 1);
    }
  }

  lemma CloudsReadOnlyTheirDraws(r1: nat -> real, r2: nat -> real, from: nat)
    requires forall k: nat :: from <= k < from + 15 ==> r1(k) == r2(k)
    ensures GenerateClouds(r1, from) == GenerateClouds(r2, from)
  {
    forall i | 0 <= i < CloudCount ensures GenerateClouds(r1, from)[i] == GenerateClouds(r2, from)[i] {
      assert r1(from + 3 * i) == r2(from + 3 * i) && r1(from + 3 * i + 1) == r2(from + 3 * i + 1);
      assert r1(from + 3 * i + 2) == r2(from + 3 * i + 2);
    }
  }

  lemma SnowReadsOnlyItsDraws(r1: nat -> real, r2: nat -> real, from: nat)
    requires forall k: nat :: from <= k < from + 150 ==> r1(k) == r2(k)
    ensures GenerateSnow(r1, from) == GenerateSnow(r2, from)
  {
    forall i | 0 <= i < SnowFlakeCount ensures GenerateSnow(r1, from)[i] == GenerateSnow(r2, from)[i] {
      assert r1(from + 3 * i) == r2(from + 3 * i) && r1(from + 3 * i + 1) == r2(from + 3 * i + 1);
      assert r1(from + 3 * i + 2) == r2(from + 3 * i + 2);
    }
  }

  /** How many values the effect draws for each array it regenerates. */
  function RainDraws(weatherType: string): (n: nat)
    ensures n == if ShowsRain(weatherType) then 300 else 0
  {
    if ShowsRain(weatherType) then RainDrawsPerDrop * RainDropCount else 0
  }

  function CloudDraws(weatherType: string): (n: nat)
    ensures n == if ShowsClouds(weatherType) then 15 else 0
  {
    if ShowsClouds(weatherType) then CloudDrawsPerShape * CloudCount else 0
  }

  /**
   * The effect on `weatherType`: each array whose flag holds is replaced
   * by a freshly generated one (rain, then clouds, then snow, sharing one
   * stream of draws); the others keep their previous contents.
   */
  function Regenerate(p: Particles, weatherType: string, random: nat -> real): (q: Particles)
    ensures q.rainDrops == if ShowsRain(weatherType) then GenerateRain(random, 0) else p.rainDrops
    ensures q.clouds == if ShowsClouds(weatherType) then GenerateClouds(random, RainDraws(weatherType)) else p.clouds
    ensures q.snowFlakes ==
      if ShowsSnow(weatherType)
      then GenerateSnow(random, RainDraws(weatherType) + CloudDraws(weatherType))
      else p.snowFlakes
  {
    var drops := if ShowsRain(weatherType) then GenerateRain(random, 0) else p.rainDrops;
    var clouds := if ShowsClouds(weatherType) then GenerateClouds(random, RainDraws(weatherType)) else p.clouds;
    var flakes :=
      if ShowsSnow(weatherType)
      then GenerateSnow(random, RainDraws(weatherType) + CloudDraws(weatherType))
      else p.snowFlakes;
    Particles(drops, clouds, flakes)
  }

  /** The arrays are empty (as initialised) or exactly as one generation left them. */
  ghost predicate WellFormed(p: Particles) {
    && (|p.rainDrops| == 0 || |p.rainDrops| == RainDropCount) && RainInRange(p.rainDrops)
    && (|p.clouds| == 0 || |p.clouds| == CloudCount) && CloudsInRange(p.clouds)
    && (|p.snowFlakes| == 0 || |p.snowFlakes| == SnowFlakeCount) && SnowInRange(p.snowFlakes)
  }

  /** Every array that `weatherType` renders has been generated in full. */
  ghost predicate Generated(p: Particles, weatherType: string) {
    && (ShowsRain(weatherType) ==> |p.rainDrops| == RainDropCount)
    && (ShowsClouds(weatherType) ==> |p.clouds| == CloudCount)
    && (ShowsSnow(weatherType) ==> |p.snowFlakes| == SnowFlakeCount)
  }

  /** Regeneration keeps the arrays well-formed and fills every array the new type shows. */
  lemma RegeneratePreservesWellFormed(p: Particles, weatherType: string, random: nat -> real)
    requires UnitSource(random) && WellFormed(p)
    ensures WellFormed(Regenerate(p, weatherType, random))
    ensures Generated(Regenerate(p, weatherType, random), weatherType)
  {
    GeneratedParticlesInRange(random, 0);
    GeneratedParticlesInRange(random, RainDraws(weatherType));
    GeneratedParticlesInRange(random, RainDraws(weatherType) + CloudDraws(weatherType));
  }

  // What the overlay renders.

  datatype DropView = DropView(key: nat, left: real, delay: real, duration: real)
  datatype CloudView = CloudView(top: real, width: real, delay: real)
  datatype FlakeView = FlakeView(key: nat, left: real, size: real, delay: real, duration: real)

  datatype Scene = Scene(
    sunRays: bool,
    drops: seq<DropView>,
    clouds: seq<CloudView>,
    flakes: seq<FlakeView>,
    lightning: bool)

  /** The two cloud layers drawn after the generated shapes: top (%), width (px), delay (s). */
  const FixedClouds: seq<CloudView> := [CloudView(15.0, 120.0, 5.0), CloudView(25.0, 80.0, 12.0)]

  /** Animation duration of a rain drop, from one draw. */
  function RainDuration(r: real): (d: real)
    requires 0.0 <= r < 1.0
    ensures 0.8 <= d < 1.2
  {
    0.8 + r * 0.4
  }

  /** Animation duration of a snow flake, from one draw. */
  function SnowDuration(r: real): (d: real)
    requires 0.0 <= r < 1.0
    ensures 2.0 <= d < 4.0
  {
    r * 2.0 + 2.0
  }

  /** The generated shapes as drawn: position, width and delay as generated, in order. */
  function GeneratedCloudViews(clouds: seq<CloudShape>): (v: seq<CloudView>)
    ensures |v| == |clouds|
    ensures forall i :: 0 <= i < |v| ==>
      && v[i].top == clouds[i].top && v[i].width == clouds[i].size
      && v[i].delay == clouds[i].delay
  {
    seq(|clouds|, i requires 0 <= i < |clouds| =>
      var c := clouds[i];
      CloudView(c.top, c.size, c.delay))
  }

  /**
   * The overlay for `weatherType` over the current arrays. Rendering
   * draws one duration per rendered drop, then one per rendered flake.
   */
  function RenderScene(weatherType: string, p: Particles, random: nat -> real): (s: Scene)
    requires UnitSource(random)
    ensures s.sunRays == ShowsSun(weatherType) && s.lightning == ShowsLightning(weatherType)
    ensures |s.drops| == (if ShowsRain(weatherType) then |p.rainDrops| else 0)
    ensures forall i :: 0 <= i < |s.drops| ==>
      && s.drops[i].key == p.rainDrops[i].id
      && s.drops[i].left == p.rainDrops[i].left && s.drops[i].delay == p.rainDrops[i].delay
      && 0.8 <= s.drops[i].duration < 1.2
    ensures |s.clouds| == (if ShowsClouds(weatherType) then |p.clouds| + |FixedClouds| else 0)
    ensures forall i :: 0 <= i < |s.clouds| && i < |p.clouds| ==>
      && s.clouds[i].top == p.clouds[i].top && s.clouds[i].width == p.clouds[i].size
      && s.clouds[i].delay == p.clouds[i].delay
    ensures ShowsClouds(weatherType) ==> s.clouds[|p.clouds|..] == FixedClouds
    ensures |s.flakes| == (if ShowsSnow(weatherType) then |p.snowFlakes| else 0)
    ensures forall i :: 0 <= i < |s.flakes| ==>
      && s.flakes[i].key == p.snowFlakes[i].id
      && s.flakes[i].left == p.snowFlakes[i].left && s.flakes[i].size == p.snowFlakes[i].size
      && s.flakes[i].delay == p.snowFlakes[i].delay
      && 2.0 <= s.flakes[i].duration < 4.0
  {
    var drops :=
      if ShowsRain(weatherType)
      then seq(|p.rainDrops|, i requires 0 <= i < |p.rainDrops| =>
             var d := p.rainDrops[i];
             DropView(d.id, d.left, d.delay, RainDuration(random(i))))
      else [];
    var clouds :=
      if ShowsClouds(weatherType)
      then GeneratedCloudViews(p.clouds) + FixedClouds
      else [];
    var flakes :=
      if ShowsSnow(weatherType)
      then seq(|p.snowFlakes|, i requires 0 <= i < |p.snowFlakes| =>
             var f := p.snowFlakes[i];
             FlakeView(f.id, f.left, f.size, f.delay, SnowDuration(random(|drops| + i))))
      else [];
    Scene(ShowsSun(weatherType), drops, clouds, flakes, ShowsLightning(weatherType))
  }

  /**
   * Once the effect has run for `weatherType`, the overlay shows 150 drops,
   * 5 + 2 clouds and 50 flakes for the categories the type matches, and
   * nothing of the others.
   */
  lemma SceneAfterEffect(p: Particles, weatherType: string, effectRandom: nat -> real, renderRandom: nat -> real)
    requires UnitSource(effectRandom) && UnitSource(renderRandom)
    ensures var s := RenderScene(weatherType, Regenerate(p, weatherType, effectRandom), renderRandom);
      && |s.drops| == (if ShowsRain(weatherType) then RainDropCount else 0)
      && (forall i :: 0 <= i < |s.drops| ==> s.drops[i].key == i)
      && |s.clouds| == (if ShowsClouds(weatherType) then CloudCount + 2 else 0)
      && |s.flakes| == (if ShowsSnow(weatherType) then SnowFlakeCount else 0)
      && (forall i :: 0 <= i < |s.flakes| ==> s.flakes[i].key == i)
  {
  }

  /** Clear weather shows the sun rays and no particle at all, whatever the arrays hold. */
  lemma ClearShowsOnlySun(p: Particles, random: nat -> real)
    requires UnitSource(random)
    ensures RenderScene("clear", p, random) == Scene(true, [], [], [], false)
  {
    AbsentCharExcludes("clear", "rain", 'i');
    AbsentCharExcludes("clear", "drizzle", 'z');
    AbsentCharExcludes("clear", "cloud", 'o');
    AbsentCharExcludes("clear", "snow", 'o');
    AbsentCharExcludes("clear", "thunder", 't');
    ContainsAt("clear", "clear", 0);
    AbsentCharExcludes("clear", "storm", 't');
  }

  /** The thunderstorm category flashes lightning but draws no rain. */
  lemma ThunderstormIsNotRain(t: string)
    requires t == "thunderstorm"
    ensures ShowsLightning(t) && !ShowsRain(t)
  {
    assert t[0..7] == "thunder";
    ContainsAt(t, "thunder", 0);
    assert forall k | 0 <= k < |t| :: t[k] != 'a' && t[k] != 'z';
    AbsentCharExcludes(t, "rain", 'a');
    AbsentCharExcludes(t, "drizzle", 'z');
  }

  /** The empty type (no reading yet) switches every decoration off. */
  lemma EmptyTypeShowsNothing()
    ensures !ShowsRain("") && !ShowsClouds("") && !ShowsSnow("") && !ShowsSun("") && !ShowsLightning("")
  {
    EmptyContainsNothing("rain");
    EmptyContainsNothing("drizzle");
    EmptyContainsNothing("cloud");
    EmptyContainsNothing("snow");
    EmptyContainsNothing("clear");
    EmptyContainsNothing("thunder");
    EmptyContainsNothing("storm");
  }

  /** The flags are not exclusive: one type can switch on several decorations. */
  lemma FlagsOverlap()
    ensures ShowsClouds("cloudy rain") && ShowsRain("cloudy rain")
  {
    ContainsAt("cloudy rain", "cloud", 0);
    ContainsAt("cloudy rain", "rain", 7);
  }

  /**
   * The WeatherAnimations component: its three state arrays and the
   * weather type its effect last ran for.
   */
  class Animations {
    var rainDrops: seq<RainDrop>
    var clouds: seq<CloudShape>
    var snowFlakes: seq<SnowFlake>
    /** The `weatherType` of the last effect run; `None` before the first render. */
    var effectType: Option<string>

    function State(): Particles
      reads this
    {
      Particles(rainDrops, clouds, snowFlakes)
    }

    ghost predicate Valid()
      reads this
    {
      WellFormed(State()) && (effectType.Some? ==> Generated(State(), effectType.value))
    }

    /** The `useState([])` initial values. */
    constructor ()
      ensures Valid()
      ensures State() == Particles([], [], []) && effectType == None
    {
      rainDrops, clouds, snowFlakes := [], [], [];
      effectType := None;
    }

    /**
     * A render with prop `weatherType`: the effect runs when the type
     * differs from the one it last ran for (always, on the first render).
     */
    method Update(weatherType: string, random: nat -> real)
      requires Valid() && UnitSource(random)
      modifies this
      ensures Valid() && effectType == Some(weatherType)
      ensures State() ==
        if old(effectType) == Some(weatherType) then old(State())
        else Regenerate(old(State()), weatherType, random)
    {
      if effectType != Some(weatherType) {
        RegeneratePreservesWellFormed(State(), weatherType, random);
        var next := Regenerate(State(), weatherType, random);
        rainDrops, clouds, snowFlakes := next.rainDrops, next.clouds, next.snowFlakes;
        effectType := Some(weatherType);
      }
    }

    /**
     * The overlay once the effect has run: full particle arrays for every
     * decoration the type matches, nothing for the others.
     */
    function View(random: nat -> real): (s: Scene)
      reads this
      requires Valid() && effectType.Some? && UnitSource(random)
      ensures s == RenderScene(effectType.value, State(), random)
      ensures |s.drops| == (if ShowsRain(effectType.value) then RainDropCount else 0)
      ensures |s.clouds| == (if ShowsClouds(effectType.value) then CloudCount + 2 else 0)
      ensures |s.flakes| == (if ShowsSnow(effectType.value) then SnowFlakeCount else 0)
    {
      RenderScene(effectType.value, State(), random)
    }
  }
}
