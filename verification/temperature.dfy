/**
  Temperature conversion among the Celsius, Fahrenheit and Kelvin scales.

  Each of the six conversions clamps at absolute zero: an input at or below
  the source scale's absolute zero yields exactly the destination scale's
  absolute zero; any other input goes through the scale's linear formula.
  Temperatures are modelled as exact reals, so every equality the original
  tests check within a tolerance holds here exactly.
 */
module Temperature {

  /** Absolute zero on each scale: the floor of every result on that scale. */
  const AbsoluteZeroC: real := -273.15
  const AbsoluteZeroF: real := -459.67
  const AbsoluteZeroK: real := 0.0

  // ---------------------------------------------------------------------
  // The six conversions
  // ---------------------------------------------------------------------

  /** Celsius to Fahrenheit: (C * 9 / 5) + 32, never below -459.67. */
  function CelsiusToFahrenheit(c: real): (r: real)
    ensures r >= AbsoluteZeroF
    ensures r == AbsoluteZeroF <==> c <= AbsoluteZeroC
  {
    if c <= AbsoluteZeroC then AbsoluteZeroF else (c * 9.0 / 5.0) + 32.0
  }

  /** Celsius to Kelvin: C + 273.15, never below 0. */
  function CelsiusToKelvin(c: real): (r: real)
    ensures r >= AbsoluteZeroK
    ensures r == AbsoluteZeroK <==> c <= AbsoluteZeroC
  {
    if c <= AbsoluteZeroC then AbsoluteZeroK else c + 273.15
  }

  /** Fahrenheit to Celsius: (F - 32) * 5 / 9, never below -273.15. */
  function FahrenheitToCelsius(f: real): (r: real)
    ensures r >= AbsoluteZeroC
    ensures r == AbsoluteZeroC <==> f <= AbsoluteZeroF
  {
    if f <= AbsoluteZeroF then AbsoluteZeroC else (f - 32.0) * 5.0 / 9.0
  }

  /** Fahrenheit to Kelvin: (F - 32) * 5 / 9 + 273.15, never below 0. */
  function FahrenheitToKelvin(f: real): (r: real)
    ensures r >= AbsoluteZeroK
    ensures r == AbsoluteZeroK <==> f <= AbsoluteZeroF
  {
    if f <= AbsoluteZeroF then AbsoluteZeroK else (f - 32.0) * 5.0 / 9.0 + 273.15
  }

  /** Kelvin to Celsius: K - 273.15, never below -273.15. */
  function KelvinToCelsius(k: real): (r: real)
    ensures r >= AbsoluteZeroC
    ensures r == AbsoluteZeroC <==> k <= AbsoluteZeroK
  {
    if k <= AbsoluteZeroK then AbsoluteZeroC else k - 273.15
  }

  /** Kelvin to Fahrenheit: K * 9 / 5 - 459.67, never below -459.67. */
  function KelvinToFahrenheit(k: real): (r: real)
    ensures r >= AbsoluteZeroF
    ensures r == AbsoluteZeroF <==> k <= AbsoluteZeroK
  {
    if k <= AbsoluteZeroK then AbsoluteZeroF else k * 9.0 / 5.0 - 459.67
  }

  // ---------------------------------------------------------------------
  // Reference definition: absolute temperature
  // ---------------------------------------------------------------------

  datatype Scale = Celsius | Fahrenheit | Kelvin

  /** The floor constant of a scale. */
  function AbsoluteZero(s: Scale): real
  {
    match s
    case Celsius => AbsoluteZeroC
    case Fahrenheit => AbsoluteZeroF
    case Kelvin => AbsoluteZeroK
  }

  /**
    The absolute temperature (in kelvins, without any clamping) that a reading
    `v` on scale `s` stands for: a strictly increasing affine map that sends
    the scale's absolute zero to 0.
   */
  function ToKelvin(s: Scale, v: real): (k: real)
    ensures k <= 0.0 <==> v <= AbsoluteZero(s)
    ensures k == 0.0 <==> v == AbsoluteZero(s)
  {
    match s
    case Celsius => v - AbsoluteZeroC
    case Fahrenheit => (v - AbsoluteZeroF) * 5.0 / 9.0
    case Kelvin => v
  }

  /** The reading on scale `s` of the absolute temperature `k`. */
  function FromKelvin(s: Scale, k: real): (v: real)
    ensures ToKelvin(s, v) == k
    ensures k >= 0.0 ==> v >= AbsoluteZero(s)
  {
    match s
    case Celsius => k + AbsoluteZeroC
    case Fahrenheit => k * 9.0 / 5.0 + AbsoluteZeroF
    case Kelvin => k
  }

  function Max(a: real, b: real): real
  {
    if a <= b then b else a
  }

  /** Readings on a scale and absolute temperatures are in one-to-one correspondence. */
  lemma FromKelvinToKelvin(s: Scale, v: real)
    ensures FromKelvin(s, ToKelvin(s, v)) == v
  {
  }

  // ---------------------------------------------------------------------
  // The six conversions as data
  // ---------------------------------------------------------------------

  /** One of the six named conversions, one per ordered pair of distinct scales. */
  datatype Conversion = CToF | CToK | FToC | FToK | KToC | KToF
  {
    function Source(): Scale
    {
      match this
      case CToF | CToK => Celsius
      case FToC | FToK => Fahrenheit
      case KToC | KToF => Kelvin
    }

    function Target(): Scale
    {
      match this
      case FToC | KToC => Celsius
      case CToF | KToF => Fahrenheit
      case CToK | FToK => Kelvin
    }
  }

  /** Runs the named conversion function that `conv` stands for. */
  function Apply(conv: Conversion, v: real): (r: real)
    ensures r >= AbsoluteZero(conv.Target())
  {
    match conv
    case CToF => CelsiusToFahrenheit(v)
    case CToK => CelsiusToKelvin(v)
    case FToC => FahrenheitToCelsius(v)
    case FToK => FahrenheitToKelvin(v)
    case KToC => KelvinToCelsius(v)
    case KToF => KelvinToFahrenheit(v)
  }

  /**
    Every conversion agrees with the reference: take the absolute temperature
    of the input, raise it to absolute zero if it lies below, and read it off
    on the destination scale. This is at once the floor clamp (inputs at or
    below the source floor give the destination floor) and the formula branch
    (any other input is converted by an exact affine map).
   */
  lemma ApplyIsClampedAbsolute(conv: Conversion, v: real)
    ensures Apply(conv, v) == FromKelvin(conv.Target(), Max(0.0, ToKelvin(conv.Source(), v)))
  {
  }

  /** Applies a chain of conversions, first to last. */
  function ApplyAll(path: seq<Conversion>, v: real): real
  {
    if path == [] then v else ApplyAll(path[1..], Apply(path[0], v))
  }

  /** Each conversion in `path` reads from the scale the previous one wrote to. */
  predicate Chained(path: seq<Conversion>)
  {
    forall i :: 0 < i < |path| ==> path[i].Source() == path[i - 1].Target()
  }

  /**
    Path independence: however a reading is routed through the scales, the
    result depends only on the first source scale and the last target scale,
    and equals the clamped absolute temperature read on that target scale.
   */
  lemma {:induction false} PathIndependence(path: seq<Conversion>, v: real)
    requires |path| > 0 && Chained(path)
    ensures ApplyAll(path, v)
         == FromKelvin(path[|path| - 1].Target(), Max(0.0, ToKelvin(path[0].Source(), v)))
  {
    var w := Apply(path[0], v);
    ApplyIsClampedAbsolute(path[0], v);
    if |path| > 1 {
      var rest := path[1..];
      assert Chained(rest) by {
        forall i | 0 < i < |rest| ensures rest[i].Source() == rest[i - 1].Target() {
          assert rest[i] == path[i + 1] && rest[i - 1] == path[i];
        }
      }
      PathIndependence(rest, w);
      assert rest[0] == path[1] && rest[|rest| - 1] == path[|path| - 1];
    }
  }

  // ---------------------------------------------------------------------
  // Properties of the named conversions
  // ---------------------------------------------------------------------

  /**
    Continuity at the floor: each conversion equals its formula applied to the
    input raised to the source floor, so the clamp introduces no jump.
   */
  lemma ClampIsContinuous(v: real)
    ensures CelsiusToFahrenheit(v) == (Max(v, AbsoluteZeroC) * 9.0 / 5.0) + 32.0
    ensures CelsiusToKelvin(v) == Max(v, AbsoluteZeroC) + 273.15
    ensures FahrenheitToCelsius(v) == (Max(v, AbsoluteZeroF) - 32.0) * 5.0 / 9.0
    ensures FahrenheitToKelvin(v) == (Max(v, AbsoluteZeroF) - 32.0) * 5.0 / 9.0 + 273.15
    ensures KelvinToCelsius(v) == Max(v, AbsoluteZeroK) - 273.15
    ensures KelvinToFahrenheit(v) == Max(v, AbsoluteZeroK) * 9.0 / 5.0 - 459.67
  {
  }

  /**
    Round trips between Celsius and Fahrenheit: an input at or above the floor
    comes back unchanged, an input below it comes back as the floor.
   */
  lemma RoundTripCelsiusFahrenheit(c: real, f: real)
    ensures FahrenheitToCelsius(CelsiusToFahrenheit(c)) == Max(c, AbsoluteZeroC)
    ensures CelsiusToFahrenheit(FahrenheitToCelsius(f)) == Max(f, AbsoluteZeroF)
  {
  }

  /** Round trips between Celsius and Kelvin. */
  lemma RoundTripCelsiusKelvin(c: real, k: real)
    ensures KelvinToCelsius(CelsiusToKelvin(c)) == Max(c, AbsoluteZeroC)
    ensures CelsiusToKelvin(KelvinToCelsius(k)) == Max(k, AbsoluteZeroK)
  {
  }

  /** Round trips between Fahrenheit and Kelvin. */
  lemma RoundTripFahrenheitKelvin(f: real, k: real)
    ensures KelvinToFahrenheit(FahrenheitToKelvin(f)) == Max(f, AbsoluteZeroF)
    ensures FahrenheitToKelvin(KelvinToFahrenheit(k)) == Max(k, AbsoluteZeroK)
  {
  }

  /**
    Path consistency: converting directly gives the same result as going
    through the third scale, for every input and every pair of scales.
   */
  lemma PathConsistency(v: real)
    ensures CelsiusToFahrenheit(v) == KelvinToFahrenheit(CelsiusToKelvin(v))
    ensures CelsiusToKelvin(v) == FahrenheitToKelvin(CelsiusToFahrenheit(v))
    ensures FahrenheitToCelsius(v) == KelvinToCelsius(FahrenheitToKelvin(v))
    ensures FahrenheitToKelvin(v) == CelsiusToKelvin(FahrenheitToCelsius(v))
    ensures KelvinToCelsius(v) == FahrenheitToCelsius(KelvinToFahrenheit(v))
    ensures KelvinToFahrenheit(v) == CelsiusToFahrenheit(KelvinToCelsius(v))
  {
  }

  // ---------------------------------------------------------------------
  // The values the original unit tests check, here as exact equalities
  // ---------------------------------------------------------------------

  lemma CelsiusToFahrenheitValues()
    ensures CelsiusToFahrenheit(AbsoluteZeroC) == AbsoluteZeroF
    ensures CelsiusToFahrenheit(AbsoluteZeroC - 23.04) == AbsoluteZeroF
    ensures CelsiusToFahrenheit(100.0) == 212.0
    ensures CelsiusToFahrenheit(55.0) == 131.0
  {
  }

  lemma FahrenheitToCelsiusValues()
    ensures FahrenheitToCelsius(AbsoluteZeroF) == AbsoluteZeroC
    ensures FahrenheitToCelsius(AbsoluteZeroF - 16.0) == AbsoluteZeroC
    ensures FahrenheitToCelsius(212.0) == 100.0
    ensures FahrenheitToCelsius(131.0) == 55.0
  {
  }

  lemma CelsiusToKelvinValues()
    ensures CelsiusToKelvin(AbsoluteZeroC) == AbsoluteZeroK
    ensures CelsiusToKelvin(AbsoluteZeroC - 9.222) == AbsoluteZeroK
    ensures CelsiusToKelvin(0.0) == 273.15
    ensures CelsiusToKelvin(-273.15) == 0.0
    ensures CelsiusToKelvin(100.0) == 373.15
  {
  }

  lemma KelvinToCelsiusValues()
    ensures KelvinToCelsius(AbsoluteZeroK) == AbsoluteZeroC
    ensures KelvinToCelsius(AbsoluteZeroK - 889.0) == AbsoluteZeroC
    ensures KelvinToCelsius(273.15) == 0.0
    ensures KelvinToCelsius(0.0) == -273.15
    ensures KelvinToCelsius(373.15) == 100.0
  {
  }

  lemma FahrenheitToKelvinValues()
    ensures FahrenheitToKelvin(AbsoluteZeroF) == AbsoluteZeroK
    ensures FahrenheitToKelvin(AbsoluteZeroF - 10.9) == AbsoluteZeroK
    ensures FahrenheitToKelvin(32.0) == 273.15
    ensures FahrenheitToKelvin(-459.67) == 0.0
    ensures FahrenheitToKelvin(212.0) == 373.15
  {
  }

  lemma KelvinToFahrenheitValues()
    ensures KelvinToFahrenheit(AbsoluteZeroK) == AbsoluteZeroF
    ensures KelvinToFahrenheit(AbsoluteZeroK - 93.3) == AbsoluteZeroF
    ensures KelvinToFahrenheit(273.15) == 32.0
    ensures KelvinToFahrenheit(0.0) == -459.67
    ensures KelvinToFahrenheit(373.15) == 212.0
  {
  }
}
