# react-native-device-spec-info, modelled in Dafny

The library sorts a phone or tablet into a `low`, `mid` or `high` spec. It
reads the hardware: total memory, CPU cores, pixel density, screen
diagonal, OS version and whether the device is a tablet. `calculateScore`
turns these into a score of up to 100 through five threshold ladders.
`getSpecFromScore` cuts the score at 40 and 70. `getDeviceSpec` wraps both,
and when any reading throws it returns a fixed `mid` result. The CPU count
comes from the native module `RNCpuInfo`. When the native package is not
linked, that module is a Proxy that throws a linking error on every
property read.

Files:

- `common.dfy`: `Optional.Option` and the platform (`ReactNative.Platform`).
- `js_number.dfy` (`JsNumber`): JavaScript numbers, with NaN and the two
  infinities. It models `parseInt(s, 10)` and `parseFloat(s)` on strings:
  leading white space, sign, digits, fraction, exponent and `Infinity`.
  It proves what the two parsers read from a version string.
- `ladder.dfy` (`Ladder`): an if/else-if chain of `>=` tests as a table of
  rungs. `Award` is the reference meaning of such a chain. Lemmas cover
  exactly-one-band, bounds, monotonicity and JavaScript comparison with NaN.
- `rn_cpu_info.dfy` (`RNCpuInfo`): `getCpuCoreCount` and
  `getCpuCoreCountSync` over a datatype. The datatype describes the native
  module: unlinked, or linked with the outcome of its call and its cached
  constant.
- `detector.dfy` (`Detector`):
  - the ladders of `calculateScore` as constant tables, and `Score` as
    their sum;
  - `CalculateScore`, the source's chains with a running score, proved
    equal to `Score`;
  - `SpecFromScore`;
  - the two-decimal rounding of the reported details;
  - `GetDeviceSpec` and `GetDeviceSpecSimple`, with the fallback result.
- `detector_properties.dfy` (`DetectorProperties`): properties of the
  score, proved as lemmas:
  - monotonicity in each hardware fact, and of the category;
  - the tablet rule;
  - the OS-version term for unparseable, empty and `major.minor` versions;
  - four sample devices, with their exact scores;
  - the inclusive cut-offs;
  - the score uses the unrounded memory figure.

The weights in the comment at `src/detector.ts:21` (35%, 25%, 25%, 15%)
suggest a score from 0 to 100. The code does not clamp any term, and its
smallest possible score is 11 (0 + 3 + 4 + 4 + 0). The model follows the
code and proves 11 to 100.

## Model

| member | source | states |
|---|---|---|
| JsNumber.ParseInt | src/detector.ts:59 | On exact values, `parseInt(s, 10)` gives NaN or a finite whole number. |
| JsNumber.ParseFloat | src/detector.ts:65 | On exact values, wherever `parseInt` reads a number, `parseFloat` reads a finite number too. |
| JsNumber.TrimStartRemovesLeadingWhiteSpace | src/detector.ts:59 | The parsers skip exactly the leading white space: the rest is a suffix, what was dropped is white space, and the rest does not start with white space. |
| JsNumber.LeadingDigitsIsLongestDigitPrefix | src/detector.ts:59 | `parseInt` reads the longest run of digits at the head of the text. |
| JsNumber.ParsersSkipWhiteSpace | src/detector.ts:59-65 | Leading white space changes neither parser's result. |
| JsNumber.ParseIntOfDecimal | src/detector.ts:59 | `parseInt` reads back the decimal numeral of any integer, positive or negative, when a non-digit or nothing follows it. |
| JsNumber.ParseIntOfVersion | src/detector.ts:59 | On a version `major.minor...`, `parseInt` gives exactly the major number. |
| JsNumber.ParseFloatOfVersion | src/detector.ts:65 | On `major.minor` followed by nothing or a non-digit, non-exponent character, `parseFloat` gives major plus the decimal fraction minor. |
| JsNumber.ParseFloatOfVersionFloor | src/detector.ts:65 | The integer part of that `parseFloat` result is the major version. |
| JsNumber.ParseFloatOfNumeral | src/detector.ts:65 | `parseFloat` reads back the decimal numeral of a natural number when nothing numeric follows it. |
| Ladder.AwardIsFirstReached | src/detector.ts:34-40 | A chain adds exactly one band: the points of the first rung reached, or the `else` points when none is reached. |
| Ladder.AwardBounds | src/detector.ts:31-72 | On a graded ladder the band lies between the `else` points and the top rung's points. |
| Ladder.AwardMonotone | src/detector.ts:34-55 | On a graded ladder a larger value never gets fewer points. |
| Ladder.AwardOfFloor | src/detector.ts:64-69 | When every threshold is whole, only the integer part of the value decides the band. |
| Ladder.AwardNumAgrees | src/detector.ts:58-69 | JavaScript `>=` chains agree with the ladder on finite numbers. NaN and -Infinity reach no rung; +Infinity reaches the top one. |
| Detector.MemoryChain | src/detector.ts:34-40 | The memory term is 35/30/23/16/10/5/0 at 12, 8, 6, 4, 3 and 2 GB. |
| Detector.CpuChain | src/detector.ts:43-46 | The CPU term is 25/18/10 at 8, 6 and 4 cores, else 3. |
| Detector.DensityChain | src/detector.ts:49-51 | The density term is 13/8 at 3 and 2, else 4. |
| Detector.ScreenChain | src/detector.ts:53-55 | The size term is 12 for a tablet or from 6.5 in, 8 from 6 in, else 4. |
| Detector.AndroidChain | src/detector.ts:58-63 | The Android term is 15/12/8/4 at versions 14, 13, 11 and 9, else 0, with JavaScript comparison. |
| Detector.IosChain | src/detector.ts:64-69 | The iOS term is 15/12/8/4 at versions 17, 16, 14 and 12, else 0, with JavaScript comparison. |
| Detector.MemoryPoints | src/detector.ts:34-40 | The memory term lies in 0..35. |
| Detector.CpuPoints | src/detector.ts:43-46 | The CPU term lies in 3..25. |
| Detector.DensityPoints | src/detector.ts:49-51 | The density term lies in 4..13. |
| Detector.ScreenPoints | src/detector.ts:53-55 | The size term lies in 4..12. |
| Detector.VersionPoints | src/detector.ts:57-70 | The OS-version term lies in 0..15 on every platform. |
| Detector.Score | src/detector.ts:31-72 | The score is always between 11 and 100. |
| Detector.CalculateScore | src/detector.ts:23-73 | The chains with a running score compute exactly `Score` of the facts, so the result lies in 11..100. |
| Detector.SpecFromScore | src/detector.ts:78-82 | `high` iff score ≥ 70; `mid` iff 40 ≤ score < 70; `low` iff score < 40. |
| Detector.Round2 | src/detector.ts:108-109 | `parseFloat(x.toFixed(2))` is within 0.005 of x below 1e21 in magnitude. |
| Detector.Round2IsHundredths | src/detector.ts:108-109 | That result is a whole number of hundredths. |
| Detector.GetDeviceSpec | src/detector.ts:96-143 | A failed reading, an unlinked CPU module or a thrown CPU call gives exactly the fallback: `mid`, zeros, `''`, `false`, 4 cores. Otherwise the spec is that of the score of the unrounded facts, and the details are the rounded readings. |
| Detector.GetDeviceSpecSimple | src/detector.ts:158-161 | Exactly the `spec` of `getDeviceSpec`: `mid` on any failure, else the category of the score. |
| RNCpuInfo.GetCpuCoreCount | src/native/RNCpuInfo.ts:30-40 | A resolved native count is returned unchanged. On failure, a cached constant above 0 is returned, otherwise 4. An unlinked module rejects with the linking error, and never resolves with 4. |
| RNCpuInfo.GetCpuCoreCountSync | src/native/RNCpuInfo.ts:46-48 | The cached constant whenever it is defined, 0 and negatives included; 4 only when it is null or undefined; the linking error when unlinked. |
| RNCpuInfo.LinkedCoreCountIsPositive | android/src/main/java/com/devicespecdetector/RNCpuInfoModule.java:30-38 | When the native side resolves only counts above 0, a linked module always yields a positive count. |
| RNCpuInfo.SyncDiffersOnNonPositiveConstant | src/native/RNCpuInfo.ts:34-47 | After a failed native call the two entry points agree iff the constant is missing or positive. |
| RNCpuInfo.UnlinkedThrowsEverywhere | src/native/RNCpuInfo.ts:15-24 | On an unlinked module both entry points throw the same linking error. |
| DetectorProperties.ScreenPointsMonotone | src/detector.ts:53-55 | The size term never decreases with the size, or when a phone becomes a tablet. |
| DetectorProperties.ScoreMonotone | src/detector.ts:34-55 | More memory, more cores, higher density, a larger screen, or tablet going from false to true never lowers the score. |
| DetectorProperties.SpecMonotone | src/detector.ts:78-82 | The category is monotone in the score. |
| DetectorProperties.CategoryMonotone | src/detector.ts:23-82 | A device that is more capable on every fact never gets a lower category. |
| DetectorProperties.TabletIgnoresScreenSize | src/detector.ts:53 | A tablet's score does not depend on its screen size, and equals that of a 6.5 in phone. |
| DetectorProperties.UnparseableVersionScoresZero | src/detector.ts:58-70 | A version `parseFloat` reads as NaN scores 0 on every platform. |
| DetectorProperties.AndroidNaNScoresZero | src/detector.ts:59-63 | On Android a version with no leading integer scores 0. |
| DetectorProperties.EmptyVersionScoresZero | src/detector.ts:58-70 | The empty version scores 0 on every platform. |
| DetectorProperties.OtherPlatformScoresZero | src/detector.ts:57-70 | A platform other than Android and iOS never scores for its version. |
| DetectorProperties.AndroidMajorVersionDecides | src/detector.ts:59-63 | On Android the term of `major.minor...` is the band of the major version. |
| DetectorProperties.IosMajorVersionDecides | src/detector.ts:65-69 | On iOS the term of `major.minor` is the band of the major version, though `parseFloat` also reads the fraction. |
| DetectorProperties.IosAwardOfWhole | src/detector.ts:66-69 | An iOS version whose integer part is `major` gets the band of `major`. |
| DetectorProperties.VersionMonotone | src/detector.ts:58-69 | A later major version never scores less. |
| DetectorProperties.FlagshipAndroidIsHigh | src/detector.ts:23-82 | 16 GB, 8 cores, 6.8 in, density 3.2, Android "14" scores 100, which is `high`. |
| DetectorProperties.MidrangeAndroidIsMid | src/detector.ts:23-82 | 4 GB, 4 cores, 5.5 in, density 2, Android "11" scores 46, which is `mid`. |
| DetectorProperties.BudgetAndroidIsLow | src/detector.ts:23-82 | 1 GB, 2 cores, 4.7 in, density 1.5, Android "8" scores 11, which is `low`. |
| DetectorProperties.RecentIPhoneIsHigh | src/detector.ts:23-82 | 8 GB, 6 cores, 6.0 in, density 2.5, iOS "16.0" scores 76, which is `high`. |
| DetectorProperties.CutOffsAreInclusive | src/detector.ts:79-80 | 70 is `high` and 69 is `mid`; 40 is `mid` and 39 is `low`. |
| DetectorProperties.DetailsCloseToScoredFacts | src/detector.ts:107-124 | The reported memory and screen size are within 0.005 of the values that were scored. |
| DetectorProperties.RawMemoryIsScored | src/detector.ts:100-124 | 7.999 GB is reported as 8 but scored in the 6 GB band (23, not 30). |

## Left out

- `getScreenSize` (`Math.sqrt` over the screen metrics) is not modelled. The screen diagonal is an input.
- `DeviceInfo`, `Dimensions` and `Platform` are foreign calls. They become parameters: the platform, and `Readings`, which is None when any reading throws.
- The ordering of the awaited calls in `getDeviceSpec` is not modelled. Every failure leads to the same catch block.
- `console.error` logging is not modelled.
- `src/hook.ts` is a React lifecycle with an asynchronous fetch, so it is not modelled.
- `example/App.tsx` is UI, so it is not modelled. Its legend gives RAM 40%, CPU 30%, display 20% and OS 10%. The model follows the code's 35/25/25/15.
- `RNCpuInfoModule.java` (a bridge over `Runtime.availableProcessors()`) is not modelled. Only its rule of resolving counts above 0 appears, as the precondition of `LinkedCoreCountIsPositive`.
- The hardware facts are exact reals, so NaN and infinite readings are not modelled. A NaN cached `cpuCoreCount` is not modelled either.
- `ParseInt`: returns the exact integer. JavaScript turns it into a double, so a numeral above 2^53 is rounded, and one of 309 or more digits gives Infinity, which the model never returns. No score changes: +Infinity reaches the top rung, as every large finite value does.
- `ParseFloat`: computes the exact decimal value. It is not rounded to the nearest IEEE-754 double, and a numeral like `1e400` gives a finite value where JavaScript gives Infinity. The GB division and the comparisons are exact as well.
- `Round2`: rounds the exact real value to hundredths, halves away from zero. `toFixed` rounds the binary double, so a value whose double lies just below a half-hundredth can round the other way.
- The text of the linking error message is not modelled. `LinkingError` carries the platform, which is all the text depends on.
