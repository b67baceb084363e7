# Unit conversion core, modelled in Dafny

This project models the conversion core of a small command-line unit converter.
It covers two quantity kinds:

- **Temperature**, in Fahrenheit, Celsius or Kelvin, with Kelvin as the canonical unit.
- **Length**, in Meters, Kilometers, Centimeters, Inches or Feet, with Meters as the canonical unit.

A quantity is a reading plus a unit from a closed enumeration. Every conversion
pivots through the canonical unit. `to_canonical` expresses a quantity in the
canonical unit. `from_canonical` expresses a canonical reading in a target unit.
Temperature has a validating constructor that rejects negative Kelvin readings
with `BelowAbsoluteZero`. Length's constructor cannot fail.

The repository holds three generations of the temperature code, and all of them are modelled:

- `src/temperature/value.rs` (module `TemperatureValue`): checked, behind the `Conversion` trait.
- `src/temperature.rs` (module `TemperatureSingleFile`): checked, in a single file.
- `src/main.rs` (module `UncheckedTemperature`): the original unchecked code.

Each generation spells out its own formula table, and lemmas prove the tables agree.

Modelling choices:

- Readings are `real`, not IEEE-754 `f64`. The round trips therefore hold exactly. The source's tests only ask for agreement within 0.01, and the exact laws are a real-number idealisation of them. The failure boundary of `ToCanonical` is an idealisation too. In doubles, `(-459.67 - 32.0) * (5.0 / 9.0) + 273.15` evaluates to about -5.7e-14, so the source rejects -459.67 °F with `BelowAbsoluteZero`. The model accepts it as 0 K. The Celsius boundary is exact in doubles.
- The `Conversion` trait (`src/conversion.rs`) only fixes a shape. Each kind mirrors it as a pair of functions, `ToCanonical` and `FromCanonical`.
- Length's error type is `Infallible`, which has no values. `Result<Length, Infallible>` carries the same information as `Length`, so the length operations return a `Length` directly.
- The three temperature enums have the same variants, so one `Unit` datatype serves all three. The `Temperature` pair datatype is shared the same way.
- `TemperatureScale` is a reference definition that is independent of the formula tables. It describes each temperature scale by where absolute zero lies on it (-459.67 °F, -273.15 °C, 0 K) and by how many kelvins one of its degrees spans.
- `LengthValue.MetersPer` gives the meters in one of each length unit. It is the to-Meters table of src/length/value.rs:29-33, with `/ 100.0` written as `* 0.01`. So the value clause of `LengthValue.ToCanonical` nearly restates its body. The independent content for length is the inverse relation in `LengthValue.FromCanonical` and the two round-trip lemmas.
- The only conversion flow in the source is src/main.rs:107-108. It pivots through the unchecked `to_kelvin` and `from_kelvin`, and it is modelled as `UncheckedTemperature.Convert`, which never fails.
- `TemperatureValue.Convert` and `LengthValue.Convert` compose the two trait operations: `to_canonical`, then `from_canonical`. Nothing in src/main.rs, src/temperature.rs, src/temperature/ or src/length/ calls `to_canonical` or `from_canonical`. src/main.rs, the entry point, declares none of the `temperature`, `length` or `conversion` modules.
- `ConvertAlong` and the `ConvertAlongIsDirect` lemmas state a derived path-independence property: a chain of conversions ends where one direct conversion would. The program never chains conversions.

A temperature that was built successfully can still fail `to_canonical`. `new` checks only Kelvin readings (src/temperature/value.rs:14), so `New(-300.0, Celsius)` succeeds. `ToCanonical` then fails on it with `BelowAbsoluteZero` (`TemperatureValue.BelowZeroCaughtAtConversion`).

## Model

| member | source | states |
|---|---|---|
| TemperatureUnit.Name | src/temperature/unit.rs:9-15 | every unit has a non-empty label whose initial is the letter in the unit's symbol |
| TemperatureUnit.Symbol | src/temperature/unit.rs:17-23 | every symbol is a degree sign followed by one letter |
| TemperatureUnit.Labels | src/temperature/unit.rs:9-23 | the labels are Fahrenheit, Celsius, Kelvin and the symbols °F, °C, °K |
| TemperatureUnit.NamesDistinct | src/temperature/unit.rs:9-15 | two units have the same label exactly when they are the same unit |
| TemperatureUnit.SymbolsDistinct | src/temperature/unit.rs:17-23 | two units have the same symbol exactly when they are the same unit, so a symbol identifies its unit |
| TemperatureValue.New | src/temperature/value.rs:13-19 | succeeds exactly when the pair keeps the invariant "a Kelvin reading is not negative", and then stores the pair unchanged; otherwise fails with BelowAbsoluteZero |
| TemperatureValue.AbsoluteZeroBoundary | src/temperature/value.rs:14 | 0 K is accepted because the comparison is strict, and -1 K is rejected |
| TemperatureValue.BelowZeroCaughtAtConversion | src/temperature/value.rs:13-19 | a Celsius reading below absolute zero is built without complaint, and only its conversion to Kelvin fails |
| TemperatureValue.ToCanonical | src/temperature/value.rs:30-38 | succeeds exactly when the reading is at or above absolute zero on its own scale; the result is in Kelvin, keeps the invariant, and matches the reference scale; a valid Kelvin input comes back unchanged |
| TemperatureValue.ToCanonicalFailureBoundary | src/temperature/value.rs:30-38 | fails exactly for Celsius below -273.15, Fahrenheit below -459.67 and Kelvin below 0 |
| TemperatureValue.ToCanonicalIdempotent | src/temperature/value.rs:30-38 | applying to_canonical to its own successful result gives the same result |
| TemperatureValue.FromCanonical | src/temperature/value.rs:40-48 | fails only for a negative reading aimed at Kelvin; otherwise yields the target unit with the reading the reference scale gives for those kelvins |
| TemperatureValue.FromValidKelvinSucceeds | src/temperature/value.rs:40-48 | a valid Kelvin temperature converts to every unit and yields that unit |
| TemperatureValue.FromCanonicalIgnoresUnit | src/temperature/value.rs:40-48 | the result depends only on the canonical reading's value, not on its stored unit |
| TemperatureValue.RoundTrip | src/temperature/value.rs:30-48 | when to_canonical succeeds, from_canonical back to the original unit returns the original temperature exactly |
| TemperatureValue.ReverseRoundTrip | src/temperature/value.rs:30-48 | a non-negative Kelvin reading sent to any unit and back to Kelvin is recovered exactly |
| TemperatureValue.Convert | src/temperature/value.rs:30-48 | the composition of to_canonical and from_canonical succeeds exactly for readings at or above absolute zero, yields the target unit and preserves the absolute temperature |
| TemperatureValue.ConvertTwice | src/temperature/value.rs:30-48 | converting a converted temperature again equals converting the original directly |
| TemperatureValue.ConvertAlongIsDirect | src/temperature/value.rs:30-48 | derived path independence: any chain of conversions gives the same outcome, success or error, as one conversion to the chain's last unit |
| LengthUnit.Name | src/length/unit.rs:11-19 | every label is capitalised, and the unit's symbol starts with the same letter in lower case |
| LengthUnit.Symbol | src/length/unit.rs:21-29 | every symbol is one or two lower-case letters |
| LengthUnit.Labels | src/length/unit.rs:11-29 | the labels are Meters, Kilometers, Centimeters, Inches, Feet and the symbols m, km, cm, in, ft |
| LengthUnit.NamesDistinct | src/length/unit.rs:11-19 | two units have the same label exactly when they are the same unit |
| LengthUnit.SymbolsDistinct | src/length/unit.rs:21-29 | two units have the same symbol exactly when they are the same unit |
| LengthValue.New | src/length/value.rs:14-16 | always succeeds and stores the value and unit unchanged |
| LengthValue.ToCanonical | src/length/value.rs:27-37 | yields Meters, with the reading times the meters in one source unit; a Meters input comes back unchanged |
| LengthValue.ToCanonicalIdempotent | src/length/value.rs:27-37 | applying to_canonical twice equals applying it once |
| LengthValue.FromCanonical | src/length/value.rs:39-49 | yields the target unit, and the result scaled back to meters is the canonical reading; a Meters target keeps the reading |
| LengthValue.FromCanonicalIgnoresUnit | src/length/value.rs:39-49 | the result depends only on the canonical reading's value, not on its stored unit |
| LengthValue.RoundTrip | src/length/value.rs:27-49 | to Meters and back to the original unit returns the original length exactly, for all five units |
| LengthValue.ReverseRoundTrip | src/length/value.rs:27-49 | a Meters reading sent to any unit and back is recovered exactly |
| LengthValue.KilometersExample | src/length/value.rs:30-42 | 1.3 km maps to 1300 m, and 1300 m maps back to 1.3 km |
| LengthValue.Convert | src/length/value.rs:27-49 | the composition of to_canonical and from_canonical yields the target unit and preserves the length in meters |
| LengthValue.ConvertTwice | src/length/value.rs:27-49 | converting a converted length again equals converting the original directly |
| LengthValue.ConvertAlongIsDirect | src/length/value.rs:27-49 | derived path independence: any chain of conversions ends where one conversion to the chain's last unit would |
| TemperatureSingleFile.New | src/temperature.rs:24-30 | fails with BelowAbsoluteZero exactly for negative Kelvin readings, and otherwise stores the pair unchanged |
| TemperatureSingleFile.ToKelvin | src/temperature.rs:34-42 | succeeds exactly when the Kelvin image is non-negative, and then yields that image in Kelvin |
| TemperatureSingleFile.FromKelvin | src/temperature.rs:44-52 | succeeds for every non-negative Kelvin reading and fails only for a negative reading aimed at Kelvin; yields the target unit; ignores the input's unit |
| TemperatureSingleFile.Name | src/temperature.rs:54-60 | the label table equals that of src/temperature/unit.rs |
| TemperatureSingleFile.Symbol | src/temperature.rs:62-68 | the symbol table equals that of src/temperature/unit.rs |
| TemperatureSingleFile.RoundTrip | src/temperature.rs:34-52 | when to_kelvin succeeds, from_kelvin back to the original unit returns the original temperature |
| TemperatureSingleFile.AgreesWithConversion | src/temperature.rs:24-52 | new, to_kelvin and from_kelvin agree on every input with the Conversion implementation |
| UncheckedTemperature.New | src/main.rs:20-22 | always succeeds and stores both fields unchanged, with no absolute-zero check |
| UncheckedTemperature.ToKelvin | src/main.rs:26-34 | always yields Kelvin with the reference Kelvin image, negative values included; a Kelvin input comes back unchanged |
| UncheckedTemperature.FromKelvin | src/main.rs:36-44 | yields the target unit with the reading for those kelvins; a Kelvin target keeps the reading |
| UncheckedTemperature.Convert | src/main.rs:107-108 | the program's pivot never fails, yields the target unit and preserves the absolute temperature, even below absolute zero |
| UncheckedTemperature.UncheckedPivotDiffersBelowZero | src/main.rs:107-108 | the unchecked pivot returns -300 °C for -300 °C, where the checked composition fails |
| UncheckedTemperature.Name | src/main.rs:46-52 | the label table equals that of src/temperature/unit.rs |
| UncheckedTemperature.Symbol | src/main.rs:54-60 | the symbol table equals that of src/temperature/unit.rs |
| UncheckedTemperature.ToKelvinCanGoNegative | src/main.rs:26-34 | without the check, -300 °C converts to a negative Kelvin reading |
| UncheckedTemperature.RoundTrip | src/main.rs:26-44 | to Kelvin and back to the original unit returns the original temperature exactly |
| UncheckedTemperature.ToKelvinExamples | src/main.rs:211-223 | 13 °C is 286.15 K, and 13 °F is within 0.01 of 262.594 K |
| UncheckedTemperature.FromKelvinExamples | src/main.rs:225-238 | 286.15 K is 13 °C, and 262.594 K is within 0.01 of 13 °F |
| UncheckedTemperature.CheckedAgreesWithUnchecked | src/main.rs:26-44 | checked to_canonical fails exactly where the unchecked Kelvin image is negative; checked from_canonical fails exactly where the unchecked result is a negative Kelvin reading; otherwise both compute the same values |

## Left out

- The `value()` accessors (src/temperature/value.rs:21-23, src/length/value.rs:18-20) are the datatype field `value`.
- The interactive flow (`main`, `ask_source`, `ask_target`, `ask_temperature` in src/main.rs:80-205) is left out: it is stdin read loops and coloured console output. Its pivot step (src/main.rs:107-108) is modelled by `UncheckedTemperature.Convert`.
- The `Display` impls for quantities are left out. They format an `f64` to two decimals, which has no counterpart over `real`.
- The `Display` text of `TemperatureError` is left out because it is coloured presentation. Only the single-variant error datatype is kept.
- IEEE-754 rounding, NaN and infinities are not modelled. In the source, `new(NaN, Kelvin)` succeeds because `NaN < 0.0` is false. Over `real` there is no such value.
- src/conversion.rs declares signatures only. It is mirrored by the `ToCanonical`/`FromCanonical` pairs, not by a Dafny trait.
- src/temperature/mod.rs only re-exports, so it is not part of this model.
