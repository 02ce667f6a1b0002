/**
  The weather-code classifier of the widget.

  The widget turns the forecast provider's integer weather code into three
  things: a text label, an icon and a layer of decorative particles. Each of
  the three is written in the source as its own threshold ladder (code <= 1,
  <= 3, <= 21, <= 32, otherwise; first match wins). `Classify` is the
  reference ladder; each of the three presentation ladders below is written
  out as the source writes it, and its contract proves that it factors
  through `Classify`, so all three always describe the same bucket.
 */
module Classifier {
  import opened Wrappers

  /** The five buckets, in ascending order of weather code. */
  datatype Category = ClearSkies | PartlyCloudy | Rainy | Snowy | MixedConditions

  /** Position of a bucket on the code scale (0 for the lowest codes). */
  function Rank(c: Category): nat {
    match c
    case ClearSkies => 0
    case PartlyCloudy => 1
    case Rainy => 2
    case Snowy => 3
    case MixedConditions => 4
  }

  /**
    The reference ladder. Every integer lands in exactly one bucket, the
    buckets are the closed ranges below, and there is no failure for codes
    outside the provider's scale: everything above 32 is MixedConditions.
   */
  function Classify(code: int): (c: Category)
    ensures c == ClearSkies <==> code <= 1
    ensures c == PartlyCloudy <==> 2 <= code <= 3
    ensures c == Rainy <==> 4 <= code <= 21
    ensures c == Snowy <==> 22 <= code <= 32
    ensures c == MixedConditions <==> 32 < code
  {
    if code <= 1 then ClearSkies
    else if code <= 3 then PartlyCloudy
    else if code <= 21 then Rainy
    else if code <= 32 then Snowy
    else MixedConditions
  }

  /** Higher codes never fall into a lower bucket. */
  lemma ClassifyMonotone(a: int, b: int)
    requires a <= b
    ensures Rank(Classify(a)) <= Rank(Classify(b))
  {
  }

  // ---------------------------------------------------------------------
  // Labels (getWeatherDescription)
  // ---------------------------------------------------------------------

  /** The label shown for each bucket. */
  function CategoryLabel(c: Category): string {
    match c
    case ClearSkies => "Clear Skies"
    case PartlyCloudy => "Partly Cloudy"
    case Rainy => "Rainy"
    case Snowy => "Snowy"
    case MixedConditions => "Mixed Conditions"
  }

  /** The label ladder as the source writes it; it agrees with `Classify`. */
  function Description(code: int): (text: string)
    ensures text == CategoryLabel(Classify(code))
  {
    if code <= 1 then "Clear Skies"
    else if code <= 3 then "Partly Cloudy"
    else if code <= 21 then "Rainy"
    else if code <= 32 then "Snowy"
    else "Mixed Conditions"
  }

  /** The five labels are pairwise distinct, so a label names its bucket. */
  lemma CategoryLabelInjective(c1: Category, c2: Category)
    ensures CategoryLabel(c1) == CategoryLabel(c2) <==> c1 == c2
  {
  }

  /** Two codes get the same label exactly when they are in the same bucket. */
  lemma DescriptionSameIffSameBucket(a: int, b: int)
    ensures Description(a) == Description(b) <==> Classify(a) == Classify(b)
  {
    CategoryLabelInjective(Classify(a), Classify(b));
  }

  // ---------------------------------------------------------------------
  // Icons (getWeatherIcon)
  // ---------------------------------------------------------------------

  /** The lucide glyphs the widget uses for the weather icon. */
  datatype Glyph = Sun | Cloud | CloudRain | CloudSnow

  /** An icon element: a glyph, its colour class and its pixel size. */
  datatype Icon = Icon(glyph: Glyph, tint: string, size: nat)

  /** The icon drawn for each bucket; MixedConditions reuses the gray cloud. */
  function CategoryIcon(c: Category): Icon {
    match c
    case ClearSkies => Icon(Sun, "text-yellow-500", 96)
    case PartlyCloudy => Icon(Cloud, "text-gray-400", 96)
    case Rainy => Icon(CloudRain, "text-blue-500", 96)
    case Snowy => Icon(CloudSnow, "text-white", 96)
    case MixedConditions => Icon(Cloud, "text-gray-400", 96)
  }

  /** The icon ladder as the source writes it; it agrees with `Classify`. */
  function WeatherIcon(code: int): (icon: Icon)
    ensures icon == CategoryIcon(Classify(code))
    ensures icon.size == 96
  {
    if code <= 1 then Icon(Sun, "text-yellow-500", 96)
    else if code <= 3 then Icon(Cloud, "text-gray-400", 96)
    else if code <= 21 then Icon(CloudRain, "text-blue-500", 96)
    else if code <= 32 then Icon(CloudSnow, "text-white", 96)
    else Icon(Cloud, "text-gray-400", 96)
  }

  /**
    Two codes get the same icon exactly when they are in the same bucket,
    except that PartlyCloudy and MixedConditions share the gray cloud.
   */
  lemma WeatherIconSameIff(a: int, b: int)
    ensures WeatherIcon(a) == WeatherIcon(b) <==>
      Classify(a) == Classify(b) ||
      (Classify(a) in {PartlyCloudy, MixedConditions} && Classify(b) in {PartlyCloudy, MixedConditions})
  {
  }

  // ---------------------------------------------------------------------
  // Particles (renderWeatherElements)
  // ---------------------------------------------------------------------

  /** The four decorative particle styles. */
  datatype ParticleKind = Ray | CloudBlob | Raindrop | Snowflake

  /**
    One rendered particle. `index` is the position in `[...Array(n)]`, which
    the source turns into the element key (`ray-${i}`, `cloud-${i}`, ...).
   */
  datatype Particle = Particle(kind: ParticleKind, index: nat)

  /** `[...Array(n)].map((_, i) => ...)`: n particles of one kind, indexed 0..n-1. */
  function Spawn(kind: ParticleKind, n: nat): (ps: seq<Particle>)
    ensures |ps| == n
    ensures forall i :: 0 <= i < n ==> ps[i] == Particle(kind, i)
  {
    if n == 0 then [] else Spawn(kind, n - 1) + [Particle(kind, n - 1)]
  }

  /** Spawned particles have pairwise distinct keys. */
  lemma SpawnKeysDistinct(kind: ParticleKind, n: nat, i: nat, j: nat)
    requires i < n && j < n && i != j
    ensures Spawn(kind, n)[i] != Spawn(kind, n)[j]
  {
  }

  /** The particle style and count of each bucket; MixedConditions draws nothing. */
  function CategoryParticles(c: Category): Option<(ParticleKind, nat)> {
    match c
    case ClearSkies => Some((Ray, 20))
    case PartlyCloudy => Some((CloudBlob, 15))
    case Rainy => Some((Raindrop, 100))
    case Snowy => Some((Snowflake, 50))
    case MixedConditions => None
  }

  /**
    The particle ladder as the source writes it (`None` is the `null` of the
    default branch); it agrees with `Classify` in style and count.
   */
  function WeatherElements(code: int): (layer: Option<seq<Particle>>)
    ensures layer.None? <==> Classify(code) == MixedConditions
    ensures layer.Some? ==>
      var (kind, n) := CategoryParticles(Classify(code)).value;
      |layer.value| == n &&
      forall i :: 0 <= i < n ==> layer.value[i] == Particle(kind, i)
  {
    if code <= 1 then Some(Spawn(Ray, 20))
    else if code <= 3 then Some(Spawn(CloudBlob, 15))
    else if code <= 21 then Some(Spawn(Raindrop, 100))
    else if code <= 32 then Some(Spawn(Snowflake, 50))
    else None
  }

  /** The number of elements the particle layer renders (0 for `null`). */
  function ParticleCount(code: int): nat {
    match WeatherElements(code)
    case None => 0
    case Some(ps) => |ps|
  }

  /**
    20 rays, 15 clouds, 100 raindrops, 50 snowflakes, or nothing: the count
    is a function of the bucket, and never above 100.
   */
  lemma ParticleCountByBucket(code: int)
    ensures ParticleCount(code) == match Classify(code)
      case ClearSkies => 20
      case PartlyCloudy => 15
      case Rainy => 100
      case Snowy => 50
      case MixedConditions => 0
    ensures ParticleCount(code) <= 100
    ensures ParticleCount(code) == 0 <==> Description(code) == "Mixed Conditions"
  {
    CategoryLabelInjective(Classify(code), MixedConditions);
  }

  /** The three ladders agree: a code's particles, label and icon share one bucket. */
  lemma LaddersAgree(a: int, b: int)
    requires Description(a) == Description(b)
    ensures WeatherIcon(a) == WeatherIcon(b)
    ensures WeatherElements(a) == WeatherElements(b)
  {
    DescriptionSameIffSameBucket(a, b);
  }
}
