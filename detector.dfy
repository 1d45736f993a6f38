/**
 * The device classification of `src/detector.ts`: a score out of 100 built
 * from five threshold ladders (memory, CPU cores, pixel density, screen size
 * or tablet, OS version), the low/mid/high category it maps to, and the
 * fallback returned when reading the hardware fails.
 */
module Detector {

  import opened Optional
  import opened ReactNative
  import opened JsNumber
  import opened Ladder
  import opened RNCpuInfo

  /** `DeviceSpec`: 'low' | 'mid' | 'high'. */
  datatype DeviceSpec = Low | Mid | High

  /** `DeviceSpecInfo['details']`. */
  datatype Details = Details(totalMemory: real, screenSize: real, pixelDensity: real,
                             osVersion: string, isTablet: bool, cpuCores: real)

  /** `DeviceSpecInfo`. */
  datatype DeviceSpecInfo = DeviceSpecInfo(spec: DeviceSpec, details: Details)

  /** The arguments of `calculateScore`, with `Platform.OS`, which it reads globally. */
  datatype HardwareFacts = HardwareFacts(os: Platform, totalMemoryGB: real, cpuCores: real,
                                         screenSize: real, pixelDensity: real,
                                         osVersion: string, isTablet: bool)

  // The ladders of `calculateScore`, top rung first, with the points given below the last rung.

  const MemoryRungs: seq<Rung> :=
    [Rung(12.0, 35), Rung(8.0, 30), Rung(6.0, 23), Rung(4.0, 16), Rung(3.0, 10), Rung(2.0, 5)]
  const MemoryBelow: int := 0

  const CpuRungs: seq<Rung> := [Rung(8.0, 25), Rung(6.0, 18), Rung(4.0, 10)]
  const CpuBelow: int := 3

  const DensityRungs: seq<Rung> := [Rung(3.0, 13), Rung(2.0, 8)]
  const DensityBelow: int := 4

  const ScreenRungs: seq<Rung> := [Rung(6.5, 12), Rung(6.0, 8)]
  const ScreenBelow: int := 4
  /** What a tablet scores for its screen, whatever its size. */
  const TabletPoints: int := 12

  const AndroidRungs: seq<Rung> := [Rung(14.0, 15), Rung(13.0, 12), Rung(11.0, 8), Rung(9.0, 4)]
  const IosRungs: seq<Rung> := [Rung(17.0, 15), Rung(16.0, 12), Rung(14.0, 8), Rung(12.0, 4)]
  const VersionBelow: int := 0

  // Every ladder of the score is graded: a higher rung never gives fewer points.

  lemma MemoryLadderGraded() ensures Graded(MemoryRungs, MemoryBelow) {}
  lemma CpuLadderGraded() ensures Graded(CpuRungs, CpuBelow) {}
  lemma DensityLadderGraded() ensures Graded(DensityRungs, DensityBelow) {}
  lemma ScreenLadderGraded() ensures Graded(ScreenRungs, ScreenBelow) {}
  lemma AndroidLadderGraded() ensures Graded(AndroidRungs, VersionBelow) {}
  lemma IosLadderGraded() ensures Graded(IosRungs, VersionBelow) {}

  function MemoryPoints(totalMemoryGB: real): (p: int)
    ensures MemoryBelow <= p <= 35
  {
    MemoryLadderGraded();
    AwardBounds(totalMemoryGB, MemoryRungs, MemoryBelow);
    Award(totalMemoryGB, MemoryRungs, MemoryBelow)
  }

  function CpuPoints(cpuCores: real): (p: int)
    ensures CpuBelow <= p <= 25
  {
    CpuLadderGraded();
    AwardBounds(cpuCores, CpuRungs, CpuBelow);
    Award(cpuCores, CpuRungs, CpuBelow)
  }

  function DensityPoints(pixelDensity: real): (p: int)
    ensures DensityBelow <= p <= 13
  {
    DensityLadderGraded();
    AwardBounds(pixelDensity, DensityRungs, DensityBelow);
    Award(pixelDensity, DensityRungs, DensityBelow)
  }

  /** `screenSize >= 6.5 || isTablet` gives the top points; a phone's size is laddered. */
  function ScreenPoints(screenSize: real, isTablet: bool): (p: int)
    ensures ScreenBelow <= p <= TabletPoints
  {
    ScreenLadderGraded();
    AwardBounds(screenSize, ScreenRungs, ScreenBelow);
    if isTablet then TabletPoints else Award(screenSize, ScreenRungs, ScreenBelow)
  }

  /**
   * The OS-version term: `parseInt(osVersion, 10)` on Android, and
   * `parseFloat(osVersion)` on iOS, compared as JavaScript compares (NaN
   * reaches no rung); any other platform scores 0.
   */
  function VersionPoints(os: Platform, osVersion: string): (p: int)
    ensures VersionBelow <= p <= 15
  {
    match os
    case Android =>
      AndroidLadderGraded();
      var n := ParseInt(osVersion);
      AwardNumAgrees(n, AndroidRungs, VersionBelow);
      AwardBounds(if n.Finite? then n.value else 0.0, AndroidRungs, VersionBelow);
      AwardNum(n, AndroidRungs, VersionBelow)
    case IOS =>
      IosLadderGraded();
      var n := ParseFloat(osVersion);
      AwardNumAgrees(n, IosRungs, VersionBelow);
      AwardBounds(if n.Finite? then n.value else 0.0, IosRungs, VersionBelow);
      AwardNum(n, IosRungs, VersionBelow)
    case Other => VersionBelow
  }

  // Each ladder written out as the chain of `calculateScore` it stands for.

  lemma MemoryChain(x: real)
    ensures MemoryPoints(x) ==
              if x >= 12.0 then 35 else if x >= 8.0 then 30 else if x >= 6.0 then 23
              else if x >= 4.0 then 16 else if x >= 3.0 then 10 else if x >= 2.0 then 5 else 0
  {
    var r := MemoryRungs;
    assert Award(x, r[5..], 0) == if x >= 2.0 then 5 else 0;
    assert Award(x, r[4..], 0) == if x >= 3.0 then 10 else Award(x, r[5..], 0);
    assert Award(x, r[3..], 0) == if x >= 4.0 then 16 else Award(x, r[4..], 0);
    assert Award(x, r[2..], 0) == if x >= 6.0 then 23 else Award(x, r[3..], 0);
    assert Award(x, r[1..], 0) == if x >= 8.0 then 30 else Award(x, r[2..], 0);
  }

  lemma CpuChain(x: real)
    ensures CpuPoints(x) == if x >= 8.0 then 25 else if x >= 6.0 then 18 else if x >= 4.0 then 10 else 3
  {
    var r := CpuRungs;
    assert Award(x, r[2..], 3) == if x >= 4.0 then 10 else 3;
    assert Award(x, r[1..], 3) == if x >= 6.0 then 18 else Award(x, r[2..], 3);
  }

  lemma DensityChain(x: real)
    ensures DensityPoints(x) == if x >= 3.0 then 13 else if x >= 2.0 then 8 else 4
  {
    var r := DensityRungs;
    assert Award(x, r[1..], 4) == if x >= 2.0 then 8 else 4;
  }

  lemma ScreenChain(x: real, isTablet: bool)
    ensures ScreenPoints(x, isTablet) == if x >= 6.5 || isTablet then 12 else if x >= 6.0 then 8 else 4
  {
    var r := ScreenRungs;
    assert Award(x, r[1..], 4) == if x >= 6.0 then 8 else 4;
  }

  lemma AndroidChain(n: Num)
    ensures AwardNum(n, AndroidRungs, VersionBelow) ==
              if n.AtLeast(14.0) then 15 else if n.AtLeast(13.0) then 12
              else if n.AtLeast(11.0) then 8 else if n.AtLeast(9.0) then 4 else 0
  {
    var r := AndroidRungs;
    assert AwardNum(n, r[3..], 0) == if n.AtLeast(9.0) then 4 else 0;
    assert AwardNum(n, r[2..], 0) == if n.AtLeast(11.0) then 8 else AwardNum(n, r[3..], 0);
    assert AwardNum(n, r[1..], 0) == if n.AtLeast(13.0) then 12 else AwardNum(n, r[2..], 0);
  }

  lemma IosChain(n: Num)
    ensures AwardNum(n, IosRungs, VersionBelow) ==
              if n.AtLeast(17.0) then 15 else if n.AtLeast(16.0) then 12
              else if n.AtLeast(14.0) then 8 else if n.AtLeast(12.0) then 4 else 0
  {
    var r := IosRungs;
    assert AwardNum(n, r[3..], 0) == if n.AtLeast(12.0) then 4 else 0;
    assert AwardNum(n, r[2..], 0) == if n.AtLeast(14.0) then 8 else AwardNum(n, r[3..], 0);
    assert AwardNum(n, r[1..], 0) == if n.AtLeast(16.0) then 12 else AwardNum(n, r[2..], 0);
  }

  /** The device score: one band of each ladder, summed; it always lies between 11 and 100. */
  function Score(f: HardwareFacts): (s: int)
    ensures 11 <= s <= 100
  {
    MemoryPoints(f.totalMemoryGB) + CpuPoints(f.cpuCores) + DensityPoints(f.pixelDensity)
    + ScreenPoints(f.screenSize, f.isTablet) + VersionPoints(f.os, f.osVersion)
  }

  /** `calculateScore`: the chains of the source, adding one band per ladder to a running score. */
  method CalculateScore(os: Platform, totalMemoryGB: real, cpuCores: real, screenSize: real,
                        pixelDensity: real, osVersion: string, isTablet: bool) returns (score: int)
    ensures score == Score(HardwareFacts(os, totalMemoryGB, cpuCores, screenSize, pixelDensity, osVersion, isTablet))
    ensures 11 <= score <= 100
  {
    MemoryChain(totalMemoryGB);
    CpuChain(cpuCores);
    DensityChain(pixelDensity);
    ScreenChain(screenSize, isTablet);
    AndroidChain(ParseInt(osVersion));
    IosChain(ParseFloat(osVersion));
    score := 0;

    if totalMemoryGB >= 12.0 { score := score + 35; }
    else if totalMemoryGB >= 8.0 { score := score + 30; }
    else if totalMemoryGB >= 6.0 { score := score + 23; }
    else if totalMemoryGB >= 4.0 { score := score + 16; }
    else if totalMemoryGB >= 3.0 { score := score + 10; }
    else if totalMemoryGB >= 2.0 { score := score + 5; }
    else { score := score + 0; }
    assert score == MemoryPoints(totalMemoryGB);

    if cpuCores >= 8.0 { score := score + 25; }
    else if cpuCores >= 6.0 { score := score + 18; }
    else if cpuCores >= 4.0 { score := score + 10; }
    else { score := score + 3; }
    assert score == MemoryPoints(totalMemoryGB) + CpuPoints(cpuCores);

    if pixelDensity >= 3.0 { score := score + 13; }
    else if pixelDensity >= 2.0 { score := score + 8; }
    else { score := score + 4; }
    assert score == MemoryPoints(totalMemoryGB) + CpuPoints(cpuCores) + DensityPoints(pixelDensity);

    if screenSize >= 6.5 || isTablet { score := score + 12; }
    else if screenSize >= 6.0 { score := score + 8; }
    else { score := score + 4; }
    assert score == MemoryPoints(totalMemoryGB) + CpuPoints(cpuCores) + DensityPoints(pixelDensity)
                    + ScreenPoints(screenSize, isTablet);

    if os == Android {
      var androidVersion := ParseInt(osVersion);
      if androidVersion.AtLeast(14.0) { score := score + 15; }
      else if androidVersion.AtLeast(13.0) { score := score + 12; }
      else if androidVersion.AtLeast(11.0) { score := score + 8; }
      else if androidVersion.AtLeast(9.0) { score := score + 4; }
    } else if os == IOS {
      var iosVersion := ParseFloat(osVersion);
      if iosVersion.AtLeast(17.0) { score := score + 15; }
      else if iosVersion.AtLeast(16.0) { score := score + 12; }
      else if iosVersion.AtLeast(14.0) { score := score + 8; }
      else if iosVersion.AtLeast(12.0) { score := score + 4; }
    }
  }

  /** `getSpecFromScore`: 'high' from 70 up, 'mid' from 40 up, 'low' below; both cut-offs are inclusive. */
  function SpecFromScore(score: int): (spec: DeviceSpec)
    ensures spec == High <==> score >= 70
    ensures spec == Mid <==> 40 <= score < 70
    ensures spec == Low <==> score < 40
  {
    if score >= 70 then High
    else if score >= 40 then Mid
    else Low
  }

  /** `1024 ** 3`: bytes per GB in `totalMemoryBytes / (1024 ** 3)`. */
  const BytesPerGB: real := 1073741824.0

  /**
   * `parseFloat(x.toFixed(2))` on the exact value of x: the nearest multiple
   * of 0.01, halves rounded away from zero; from 1e21 on `toFixed` prints the
   * number unrounded.
   */
  function Round2(x: real): (r: real)
    ensures -1e21 < x < 1e21 ==> -0.005 <= r - x <= 0.005
  {
    if x < 0.0 then -RoundMagnitude2(-x) else RoundMagnitude2(x)
  }

  /** Round2 of a value that is not negative; a negative value rounds as its magnitude does. */
  function RoundMagnitude2(x: real): (r: real)
    requires x >= 0.0
    ensures x < 1e21 ==> -0.005 <= r - x <= 0.005
    ensures x < 1e21 ==> IsHundredths(r)
  {
    if x >= 1e21 then x
    else
      var n := (x * 100.0 + 0.5).Floor;
      NearestHundredth(x, n);
      (n as real) / 100.0
  }

  /** r is a whole number of hundredths. */
  predicate IsHundredths(r: real) {
    (r * 100.0).Floor as real == r * 100.0
  }

  lemma NearestHundredth(x: real, n: int)
    requires n as real <= x * 100.0 + 0.5 < n as real + 1.0
    ensures -0.005 <= (n as real) / 100.0 - x <= 0.005
    ensures IsHundredths((n as real) / 100.0)
  {
    assert (n as real) / 100.0 * 100.0 == n as real;
  }

  /** Below 1e21 in magnitude the result is a whole number of hundredths. */
  lemma Round2IsHundredths(x: real)
    requires -1e21 < x < 1e21
    ensures IsHundredths(Round2(x))
  {
    if x < 0.0 {
      var m := RoundMagnitude2(-x);
      var k := (m * 100.0).Floor;
      assert -m * 100.0 == (-k) as real;
    }
  }

  /** What the hardware queries other than the CPU count report. */
  datatype Readings = Readings(totalMemoryBytes: real, screenSize: real, pixelDensity: real,
                               osVersion: string, isTablet: bool)

  function FactsOf(os: Platform, r: Readings, cpuCores: real): HardwareFacts {
    HardwareFacts(os, r.totalMemoryBytes / BytesPerGB, cpuCores, r.screenSize, r.pixelDensity, r.osVersion, r.isTablet)
  }

  /** The `details` object: memory and screen size rounded to two decimals, the other readings as read. */
  function DetailsOf(r: Readings, cpuCores: real): Details {
    Details(Round2(r.totalMemoryBytes / BytesPerGB), Round2(r.screenSize), r.pixelDensity,
            r.osVersion, r.isTablet, cpuCores)
  }

  /** The result of the catch block of `getDeviceSpec`. */
  const Fallback: DeviceSpecInfo := DeviceSpecInfo(Mid, Details(0.0, 0.0, 0.0, "", false, 4.0))

  /**
   * `getDeviceSpec`: read the hardware (None when one of the `DeviceInfo` or
   * `Dimensions` calls throws), get the CPU count, score the raw facts and
   * report the rounded ones; any error is caught and turned into Fallback.
   */
  method GetDeviceSpec(os: Platform, readings: Option<Readings>, cpu: CpuModule) returns (info: DeviceSpecInfo)
    ensures readings.None? ==> info == Fallback
    ensures cpu.Unlinked? ==> info == Fallback
    ensures readings.Some? && GetCpuCoreCount(cpu, os).Threw? ==> info == Fallback
    ensures readings.Some? && GetCpuCoreCount(cpu, os).Returned? ==>
              var cores := GetCpuCoreCount(cpu, os).value;
              info == DeviceSpecInfo(SpecFromScore(Score(FactsOf(os, readings.value, cores))),
                                     DetailsOf(readings.value, cores))
  {
    if readings.None? {
      return Fallback;
    }
    var r := readings.value;
    var totalMemoryGB := r.totalMemoryBytes / BytesPerGB;
    var cpuCores := GetCpuCoreCount(cpu, os);
    if cpuCores.Threw? {
      return Fallback;
    }
    var details := Details(Round2(totalMemoryGB), Round2(r.screenSize), r.pixelDensity,
                           r.osVersion, r.isTablet, cpuCores.value);
    var score := CalculateScore(os, totalMemoryGB, cpuCores.value, r.screenSize, r.pixelDensity,
                                r.osVersion, r.isTablet);
    var spec := SpecFromScore(score);
    info := DeviceSpecInfo(spec, details);
  }

  /** `getDeviceSpecSimple`: the `spec` field of `getDeviceSpec`'s result, so 'mid' whenever reading fails. */
  method GetDeviceSpecSimple(os: Platform, readings: Option<Readings>, cpu: CpuModule) returns (spec: DeviceSpec)
    ensures readings.None? || GetCpuCoreCount(cpu, os).Threw? ==> spec == Mid
    ensures readings.Some? && GetCpuCoreCount(cpu, os).Returned? ==>
              spec == SpecFromScore(Score(FactsOf(os, readings.value, GetCpuCoreCount(cpu, os).value)))
  {
    var result := GetDeviceSpec(os, readings, cpu);
    spec := result.spec;
  }
}
