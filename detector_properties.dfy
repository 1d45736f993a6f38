/**
 * Properties of the device score and category of `src/detector.ts`:
 * monotonicity in the hardware, the tablet rule, the meaning of the OS-version
 * term, four sample devices, and what the rounded details do not decide.
 */
module DetectorProperties {

  import opened ReactNative
  import opened JsNumber
  import opened Ladder
  import opened Detector

  /** g is at least as capable as f on every input of the score, on the same platform and OS version. */
  predicate Dominates(f: HardwareFacts, g: HardwareFacts) {
    f.os == g.os && f.osVersion == g.osVersion
    && f.totalMemoryGB <= g.totalMemoryGB && f.cpuCores <= g.cpuCores
    && f.pixelDensity <= g.pixelDensity && f.screenSize <= g.screenSize
    && (f.isTablet ==> g.isTablet)
  }

  /** The screen term never decreases with the size, nor when a phone becomes a tablet. */
  lemma ScreenPointsMonotone(x: real, y: real, t: bool, u: bool)
    requires x <= y && (t ==> u)
    ensures ScreenPoints(x, t) <= ScreenPoints(y, u)
  {
    ScreenLadderGraded();
    if !u {
      AwardMonotone(x, y, ScreenRungs, ScreenBelow);
    }
  }

  /** More memory, more cores, a denser or larger screen, or being a tablet never lowers the score. */
  lemma ScoreMonotone(f: HardwareFacts, g: HardwareFacts)
    requires Dominates(f, g)
    ensures Score(f) <= Score(g)
  {
    MemoryLadderGraded();
    CpuLadderGraded();
    DensityLadderGraded();
    AwardMonotone(f.totalMemoryGB, g.totalMemoryGB, MemoryRungs, MemoryBelow);
    AwardMonotone(f.cpuCores, g.cpuCores, CpuRungs, CpuBelow);
    AwardMonotone(f.pixelDensity, g.pixelDensity, DensityRungs, DensityBelow);
    ScreenPointsMonotone(f.screenSize, g.screenSize, f.isTablet, g.isTablet);
  }

  /** The order low < mid < high. */
  function Rank(spec: DeviceSpec): (k: int)
    ensures 0 <= k <= 2
    ensures k == 0 <==> spec == Low
    ensures k == 2 <==> spec == High
  {
    match spec
    case Low => 0
    case Mid => 1
    case High => 2
  }

  /** A higher score never gives a lower category. */
  lemma SpecMonotone(a: int, b: int)
    requires a <= b
    ensures Rank(SpecFromScore(a)) <= Rank(SpecFromScore(b))
  {
  }

  /** A more capable device is never put in a lower category. */
  lemma CategoryMonotone(f: HardwareFacts, g: HardwareFacts)
    requires Dominates(f, g)
    ensures Rank(SpecFromScore(Score(f))) <= Rank(SpecFromScore(Score(g)))
  {
    ScoreMonotone(f, g);
    SpecMonotone(Score(f), Score(g));
  }

  /** A tablet scores the same whatever its screen size, and as much as the largest phone screen. */
  lemma TabletIgnoresScreenSize(f: HardwareFacts, size: real)
    requires f.isTablet
    ensures Score(f) == Score(f.(screenSize := size))
    ensures Score(f) == Score(f.(screenSize := 6.5, isTablet := false))
  {
  }

  /** A version string that `parseFloat` cannot read scores 0 on every platform: NaN reaches no rung. */
  lemma UnparseableVersionScoresZero(os: Platform, osVersion: string)
    requires ParseFloat(osVersion).NaN?
    ensures VersionPoints(os, osVersion) == 0
  {
    var n := ParseInt(osVersion);
    assert n.NaN?;
    AwardNumAgrees(n, AndroidRungs, VersionBelow);
    AwardNumAgrees(ParseFloat(osVersion), IosRungs, VersionBelow);
  }

  /** On Android only the leading integer counts: a version with no leading digits scores 0. */
  lemma AndroidNaNScoresZero(osVersion: string)
    requires ParseInt(osVersion).NaN?
    ensures VersionPoints(Android, osVersion) == 0
  {
    AwardNumAgrees(ParseInt(osVersion), AndroidRungs, VersionBelow);
  }

  /** The empty OS version contributes nothing, whatever the platform. */
  lemma EmptyVersionScoresZero(os: Platform)
    ensures VersionPoints(os, "") == 0
  {
    assert TrimStart("") == "";
    assert LeadingDigits("") == "";
    assert ParseFloat("").NaN?;
    UnparseableVersionScoresZero(os, "");
  }

  /** A platform other than Android and iOS never scores for its OS version. */
  lemma OtherPlatformScoresZero(osVersion: string)
    ensures VersionPoints(Other, osVersion) == 0
  {
  }

  /** On Android `parseInt` stops at the dot: the term of `major.minor...` is the award of the major version. */
  lemma AndroidMajorVersionDecides(major: nat, minor: string, tail: string)
    ensures VersionPoints(Android, VersionString(major, minor, tail)) == Award(major as real, AndroidRungs, VersionBelow)
  {
    ParseIntOfVersion(major, minor, tail);
    AwardNumAgrees(ParseInt(VersionString(major, minor, tail)), AndroidRungs, VersionBelow);
  }

  /**
   * On iOS `parseFloat` reads the fraction too, but every iOS threshold is
   * whole, so the term of `major.minor...` is the award of the major version.
   */
  lemma IosMajorVersionDecides(major: nat, minor: string, tail: string)
    requires AllDigits(minor)
    requires tail == [] || (!IsDigit(tail[0]) && tail[0] != 'e' && tail[0] != 'E')
    ensures VersionPoints(IOS, VersionString(major, minor, tail)) == Award(major as real, IosRungs, VersionBelow)
  {
    var s := VersionString(major, minor, tail);
    ParseFloatOfVersionFloor(major, minor, tail);
    var n := ParseFloat(s);
    assert VersionPoints(IOS, s) == AwardNum(n, IosRungs, VersionBelow);
    IosAwardOfWhole(n, major);
  }

  lemma IosAwardOfWhole(n: Num, major: nat)
    requires n.Finite? && n.value.Floor == major
    ensures AwardNum(n, IosRungs, VersionBelow) == Award(major as real, IosRungs, VersionBelow)
  {
    AwardNumAgrees(n, IosRungs, VersionBelow);
    assert WholeThresholds(IosRungs);
    AwardOfFloor(n.value, IosRungs, VersionBelow);
  }

  /** A later major version never scores less, on either platform. */
  lemma VersionMonotone(os: Platform, major: nat, major': nat, minor: string, tail: string)
    requires major <= major'
    requires AllDigits(minor)
    requires tail == [] || (!IsDigit(tail[0]) && tail[0] != 'e' && tail[0] != 'E')
    ensures VersionPoints(os, VersionString(major, minor, tail)) <= VersionPoints(os, VersionString(major', minor, tail))
  {
    match os
    case Android =>
      AndroidMajorVersionDecides(major, minor, tail);
      AndroidMajorVersionDecides(major', minor, tail);
      AndroidLadderGraded();
      AwardMonotone(major as real, major' as real, AndroidRungs, VersionBelow);
    case IOS =>
      IosMajorVersionDecides(major, minor, tail);
      IosMajorVersionDecides(major', minor, tail);
      IosLadderGraded();
      AwardMonotone(major as real, major' as real, IosRungs, VersionBelow);
    case Other =>
  }

  // Four sample devices.

  lemma FlagshipAndroidIsHigh()
    ensures Score(HardwareFacts(Android, 16.0, 8.0, 6.8, 3.2, "14", false)) == 100
    ensures SpecFromScore(100) == High
  {
    assert IntToDecimal(14) == "14";
    ParseIntOfDecimal(14, "");
    assert "14" + "" == "14";
    AwardNumAgrees(ParseInt("14"), AndroidRungs, VersionBelow);
  }

  lemma MidrangeAndroidIsMid()
    ensures Score(HardwareFacts(Android, 4.0, 4.0, 5.5, 2.0, "11", false)) == 46
    ensures SpecFromScore(46) == Mid
  {
    assert IntToDecimal(11) == "11";
    ParseIntOfDecimal(11, "");
    assert "11" + "" == "11";
    AwardNumAgrees(ParseInt("11"), AndroidRungs, VersionBelow);
  }

  lemma BudgetAndroidIsLow()
    ensures Score(HardwareFacts(Android, 1.0, 2.0, 4.7, 1.5, "8", false)) == 11
    ensures SpecFromScore(11) == Low
  {
    assert IntToDecimal(8) == "8";
    ParseIntOfDecimal(8, "");
    assert "8" + "" == "8";
    AwardNumAgrees(ParseInt("8"), AndroidRungs, VersionBelow);
  }

  lemma RecentIPhoneIsHigh()
    ensures Score(HardwareFacts(IOS, 8.0, 6.0, 6.0, 2.5, "16.0", false)) == 76
    ensures SpecFromScore(76) == High
  {
    assert NatToDecimal(16) == "16";
    assert VersionString(16, "0", "") == "16.0";
    IosMajorVersionDecides(16, "0", "");
  }

  /** Both cut-offs are inclusive: 70 is high and 40 is mid, one below each is the category under it. */
  lemma CutOffsAreInclusive()
    ensures SpecFromScore(70) == High && SpecFromScore(69) == Mid
    ensures SpecFromScore(40) == Mid && SpecFromScore(39) == Low
  {
  }

  /** The reported memory and screen size are within half a hundredth of the values that were scored. */
  lemma DetailsCloseToScoredFacts(os: Platform, r: Readings, cpuCores: real)
    requires -1e21 < r.totalMemoryBytes / BytesPerGB < 1e21
    requires -1e21 < r.screenSize < 1e21
    ensures -0.005 <= DetailsOf(r, cpuCores).totalMemory - FactsOf(os, r, cpuCores).totalMemoryGB <= 0.005
    ensures -0.005 <= DetailsOf(r, cpuCores).screenSize - FactsOf(os, r, cpuCores).screenSize <= 0.005
  {
  }

  /**
   * The score is taken on the unrounded memory: 7.999 GB is reported as 8
   * but scored in the 6 GB band.
   */
  lemma RawMemoryIsScored()
    ensures Round2(7.999) == 8.0
    ensures MemoryPoints(7.999) == 23 && MemoryPoints(Round2(7.999)) == 30
  {
    assert (7.999 * 100.0 + 0.5).Floor == 800;
    MemoryChain(7.999);
    MemoryChain(8.0);
  }
}
