# Temperature conversion suite

A Dafny model of the temperature conversion suite in
`utilities/src/temperature.rs`: three absolute-zero constants (Celsius
-273.15, Fahrenheit -459.67, Kelvin 0.0) and six conversion functions, one per
ordered pair of distinct scales. Each function returns the destination scale's
absolute zero when its input is at or below the source scale's absolute zero,
and otherwise applies its documented linear formula.

Temperatures are modelled as Dafny `real`, with the constants as exact decimal
literals. The equalities the original unit tests check within a tolerance
(`assert_almost_eq`) are therefore stated and proved exactly.

Everything is in `temperature.dfy`, module `Temperature`:

- the constants `AbsoluteZeroC`, `AbsoluteZeroF` and `AbsoluteZeroK`, and the
  six functions `CelsiusToFahrenheit` … `KelvinToFahrenheit`, which have the
  same branches and formulas as the Rust code;
- an independent reference definition of the conversions. `ToKelvin` and
  `FromKelvin` map a reading on a `Scale` to and from an absolute
  temperature. Every conversion equals "take the absolute temperature, raise it
  to absolute zero if it is below, read it off on the destination scale";
- `Conversion`, the six conversions as data, with `Apply` and `ApplyAll` to run
  one conversion or a chain of them. This states path independence for chains
  of any length;
- lemmas for continuity at the floor, the round trips, path consistency and the
  values checked by the unit tests.

## Model

| member | source | states |
|---|---|---|
| `Temperature.CelsiusToFahrenheit` | utilities/src/temperature.rs:6-19 | the result is never below -459.67, and it equals -459.67 exactly when the input is at or below -273.15 |
| `Temperature.CelsiusToKelvin` | utilities/src/temperature.rs:21-34 | the result is never below 0, and it equals 0 exactly when the input is at or below -273.15 |
| `Temperature.FahrenheitToCelsius` | utilities/src/temperature.rs:36-49 | the result is never below -273.15, and it equals -273.15 exactly when the input is at or below -459.67 |
| `Temperature.FahrenheitToKelvin` | utilities/src/temperature.rs:51-64 | the result is never below 0, and it equals 0 exactly when the input is at or below -459.67 |
| `Temperature.KelvinToCelsius` | utilities/src/temperature.rs:66-79 | the result is never below -273.15, and it equals -273.15 exactly when the input is at or below 0 |
| `Temperature.KelvinToFahrenheit` | utilities/src/temperature.rs:81-94 | the result is never below -459.67, and it equals -459.67 exactly when the input is at or below 0 |
| `Temperature.ToKelvin` | utilities/src/temperature.rs:2-4 | the absolute temperature of a reading is at most 0 exactly when the reading is at or below its scale's absolute-zero constant, and is 0 exactly at that constant |
| `Temperature.FromKelvin` | utilities/src/temperature.rs:2-4 | reading an absolute temperature on a scale inverts `ToKelvin`, and a non-negative absolute temperature reads at or above the scale's absolute-zero constant |
| `Temperature.FromKelvinToKelvin` | utilities/src/temperature.rs:2-4 | `ToKelvin` is invertible on every scale, so readings and absolute temperatures correspond one to one |
| `Temperature.Apply` | utilities/src/temperature.rs:13-94 | whichever of the six conversions is run, the result is never below the destination scale's absolute zero |
| `Temperature.ApplyIsClampedAbsolute` | utilities/src/temperature.rs:13-94 | each conversion equals the reference: the input's absolute temperature, raised to 0 if negative, read on the destination scale (this covers both the floor clamp and the formula branch) |
| `Temperature.PathIndependence` | utilities/src/temperature.rs:13-94 | any chain of conversions, each reading the scale the previous one wrote, gives the clamped absolute temperature of the input read on the final scale, so the result depends only on the first and the last scale |
| `Temperature.ClampIsContinuous` | utilities/src/temperature.rs:13-94 | each conversion equals its documented formula applied to the input raised to the source floor, so the formula at the floor gives exactly the destination floor and the clamp has no jump |
| `Temperature.RoundTripCelsiusFahrenheit` | utilities/src/temperature.rs:13-49 | Celsius to Fahrenheit and back, and Fahrenheit to Celsius and back, return the input if it is at or above the floor and the floor otherwise |
| `Temperature.RoundTripCelsiusKelvin` | utilities/src/temperature.rs:28-79 | Celsius to Kelvin and back, and Kelvin to Celsius and back, return the input if it is at or above the floor and the floor otherwise |
| `Temperature.RoundTripFahrenheitKelvin` | utilities/src/temperature.rs:58-94 | Fahrenheit to Kelvin and back, and Kelvin to Fahrenheit and back, return the input if it is at or above the floor and the floor otherwise |
| `Temperature.PathConsistency` | utilities/src/temperature.rs:13-94 | for every input, each direct conversion equals the two-step conversion through the third scale, e.g. Fahrenheit to Kelvin equals Fahrenheit to Celsius then Celsius to Kelvin |
| `Temperature.CelsiusToFahrenheitValues` | utilities/src/temperature.rs:116-124 | the unit test's values hold exactly: the floor and below give -459.67, 100 gives 212, 55 gives 131 |
| `Temperature.FahrenheitToCelsiusValues` | utilities/src/temperature.rs:127-135 | the unit test's values hold exactly: the floor and below give -273.15, 212 gives 100, 131 gives 55 |
| `Temperature.CelsiusToKelvinValues` | utilities/src/temperature.rs:138-144 | the unit test's values hold exactly: the floor and below give 0, 0 gives 273.15, 100 gives 373.15 |
| `Temperature.KelvinToCelsiusValues` | utilities/src/temperature.rs:147-153 | the unit test's values hold exactly: 0 and below give -273.15, 273.15 gives 0, 373.15 gives 100 |
| `Temperature.FahrenheitToKelvinValues` | utilities/src/temperature.rs:156-165 | the unit test's values hold exactly: the floor and below give 0, 32 gives 273.15, 212 gives 373.15 |
| `Temperature.KelvinToFahrenheitValues` | utilities/src/temperature.rs:168-177 | the unit test's values hold exactly: 0 and below give -459.67, 273.15 gives 32, 373.15 gives 212 |

## Left out

- Single-precision floating point: the Rust code computes in `f32`, and its tests compare within a relative tolerance of 0.0001 or an absolute tolerance of 0.01 (`assert_almost_eq`, `EPSILON`). The model uses exact reals, so rounding is not modelled and the tests' approximate equalities become exact ones.
- NaN and infinite inputs: in Rust a NaN input fails the `<=` comparison with the floor and so takes the formula branch. Reals have no such values, and the code promises nothing about them.
- A dispatch function keyed by a pair of case-insensitive unit characters, with a sentinel for invalid pairs, is not part of this model. `utilities/src/temperature.rs` does not define one.
- The `#[cfg(test)]` harness is not modelled as code. Its assertions are the `…Values` lemmas.
