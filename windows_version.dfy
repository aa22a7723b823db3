/** The OS release classification of PhInitializeWindowsInformation: a decision ladder from the
    (major, minor, build) triple reported by the version query to a WindowsVersion tag and a
    display name, with a separate outcome when the query itself fails. */
module WindowsVersion {
  import opened NtTypes

  /** The WINDOWS_* tags, in the order of their numeric values (WINDOWS_NEW is the largest). */
  datatype VersionTag =
    | Ancient | Win7 | Win8 | Win81
    | Win10 | Win10TH2 | Win10RS1 | Win10RS2 | Win10RS3 | Win10RS4 | Win10RS5
    | Win10_19H1 | Win10_19H2 | Win10_20H1 | Win10_20H2 | Win10_21H1 | Win10_21H2 | Win10_22H2
    | Win11 | Win11_22H2 | Win11_23H2 | Win11_24H2
    | New

  /** The position of a tag in the numeric order of WINDOWS_*; `WindowsVersion >= WINDOWS_8`
      is `Rank(tag) >= Rank(Win8)`. */
  function Rank(t: VersionTag): nat {
    match t
    case Ancient => 0
    case Win7 => 1
    case Win8 => 2
    case Win81 => 3
    case Win10 => 4
    case Win10TH2 => 5
    case Win10RS1 => 6
    case Win10RS2 => 7
    case Win10RS3 => 8
    case Win10RS4 => 9
    case Win10RS5 => 10
    case Win10_19H1 => 11
    case Win10_19H2 => 12
    case Win10_20H1 => 13
    case Win10_20H2 => 14
    case Win10_21H1 => 15
    case Win10_21H2 => 16
    case Win10_22H2 => 17
    case Win11 => 18
    case Win11_22H2 => 19
    case Win11_23H2 => 20
    case Win11_24H2 => 21
    case New => 22
  }

  /** What the version query (RtlGetVersion) reports. */
  datatype OsVersionInfo = OsVersionInfo(majorVersion: ULong, minorVersion: ULong, buildNumber: ULong)

  /** The pair written to the globals WindowsVersion and WindowsVersionName. */
  datatype Classification = Classification(tag: VersionTag, name: string)

  const NEWEST_KNOWN_BUILD: ULong := 26100
  const WINDOWS_10_RTM_BUILD: ULong := 10240

  /** The fallback pair (also the initial value of the two globals is `New`/"Windows"). */
  const AncientWindows := Classification(Ancient, "Windows")
  const UnknownWindows := Classification(New, "Windows")
  const InsiderPreview := Classification(New, "Windows Insider Preview")
  const Windows10Unnamed := Classification(Win10, "Windows 10")

  /** The major 10, minor 0 ladder, as the source writes it. */
  function Windows10Release(build: ULong): Classification {
    if build > 26100 then InsiderPreview
    else if build >= 26100 then Classification(Win11_24H2, "Windows 11 24H2")
    else if build >= 22631 then Classification(Win11_23H2, "Windows 11 23H2")
    else if build >= 22621 then Classification(Win11_22H2, "Windows 11 22H2")
    else if build >= 22000 then Classification(Win11, "Windows 11")
    else if build >= 19045 then Classification(Win10_22H2, "Windows 10 22H2")
    else if build >= 19044 then Classification(Win10_21H2, "Windows 10 21H2")
    else if build >= 19043 then Classification(Win10_21H1, "Windows 10 21H1")
    else if build >= 19042 then Classification(Win10_20H2, "Windows 10 20H2")
    else if build >= 19041 then Classification(Win10_20H1, "Windows 10 20H1")
    else if build >= 18363 then Classification(Win10_19H2, "Windows 10 19H2")
    else if build >= 18362 then Classification(Win10_19H1, "Windows 10 19H1")
    else if build >= 17763 then Classification(Win10RS5, "Windows 10 RS5")
    else if build >= 17134 then Classification(Win10RS4, "Windows 10 RS4")
    else if build >= 16299 then Classification(Win10RS3, "Windows 10 RS3")
    else if build >= 15063 then Classification(Win10RS2, "Windows 10 RS2")
    else if build >= 14393 then Classification(Win10RS1, "Windows 10 RS1")
    else if build >= 10586 then Classification(Win10TH2, "Windows 10 TH2")
    else if build >= 10240 then Classification(Win10, "Windows 10 RTM")
    else Windows10Unnamed
  }

  /** The whole ladder for a successful query. */
  function Classify(v: OsVersionInfo): Classification {
    var major, minor := v.majorVersion, v.minorVersion;
    if (major == 6 && minor < 1) || major < 6 then AncientWindows
    else if major == 6 && minor == 1 then Classification(Win7, "Windows 7")
    else if major == 6 && minor == 2 then Classification(Win8, "Windows 8")
    else if major == 6 && minor == 3 then Classification(Win81, "Windows 8.1")
    else if major == 10 && minor == 0 then Windows10Release(v.buildNumber)
    else UnknownWindows
  }

  /** The outcome of PhInitializeWindowsInformation given the version query's result
      (None: the query did not succeed). A 10.0 release is the one the release table selects
      for its build, and every outcome pairs its tag with one of that tag's names. */
  function ClassifyQuery(q: Option<OsVersionInfo>): (c: Classification)
    ensures q.Some? && q.value.majorVersion == 10 && q.value.minorVersion == 0 ==>
      c == LadderReference(q.value.buildNumber)
    ensures c.name in NamesOf(c.tag)
  {
    match q
    case None => AncientWindows
    case Some(v) =>
      if v.majorVersion == 10 && v.minorVersion == 0 then
        Windows10ReleaseMatchesTable(v.buildNumber);
        Windows10NamesConsistent(v.buildNumber);
        Classify(v)
      else Classify(v)
  }

  // ---------------------------------------------------------------------------------------
  // An independent reference for the 10.0 ladder: a table of (minimum build, tag, name),
  // newest first, and "the entry with the largest threshold not above the build".

  datatype LadderEntry = LadderEntry(minBuild: ULong, release: Classification)

  const LADDER_LENGTH: nat := 18

  /** A row of the table. */
  type LadderIndex = i: nat | i < LADDER_LENGTH

  /** Row i of the table, 0 being the newest release: its minimum build, its tag and its name
      (three columns, kept apart so that reasoning about thresholds and tags never has to look at
      the names). */
  function MinBuildAt(i: int): ULong
    requires 0 <= i < LADDER_LENGTH
  {
    if i == 0 then 26100
    else if i == 1 then 22631
    else if i == 2 then 22621
    else if i == 3 then 22000
    else if i == 4 then 19045
    else if i == 5 then 19044
    else if i == 6 then 19043
    else if i == 7 then 19042
    else if i == 8 then 19041
    else if i == 9 then 18363
    else if i == 10 then 18362
    else if i == 11 then 17763
    else if i == 12 then 17134
    else if i == 13 then 16299
    else if i == 14 then 15063
    else if i == 15 then 14393
    else if i == 16 then 10586
    else 10240
  }

  function TagAt(i: int): VersionTag
    requires 0 <= i < LADDER_LENGTH
  {
    if i == 0 then Win11_24H2
    else if i == 1 then Win11_23H2
    else if i == 2 then Win11_22H2
    else if i == 3 then Win11
    else if i == 4 then Win10_22H2
    else if i == 5 then Win10_21H2
    else if i == 6 then Win10_21H1
    else if i == 7 then Win10_20H2
    else if i == 8 then Win10_20H1
    else if i == 9 then Win10_19H2
    else if i == 10 then Win10_19H1
    else if i == 11 then Win10RS5
    else if i == 12 then Win10RS4
    else if i == 13 then Win10RS3
    else if i == 14 then Win10RS2
    else if i == 15 then Win10RS1
    else if i == 16 then Win10TH2
    else Win10
  }

  function NameAt(i: int): string
    requires 0 <= i < LADDER_LENGTH
  {
    if i == 0 then "Windows 11 24H2"
    else if i == 1 then "Windows 11 23H2"
    else if i == 2 then "Windows 11 22H2"
    else if i == 3 then "Windows 11"
    else if i == 4 then "Windows 10 22H2"
    else if i == 5 then "Windows 10 21H2"
    else if i == 6 then "Windows 10 21H1"
    else if i == 7 then "Windows 10 20H2"
    else if i == 8 then "Windows 10 20H1"
    else if i == 9 then "Windows 10 19H2"
    else if i == 10 then "Windows 10 19H1"
    else if i == 11 then "Windows 10 RS5"
    else if i == 12 then "Windows 10 RS4"
    else if i == 13 then "Windows 10 RS3"
    else if i == 14 then "Windows 10 RS2"
    else if i == 15 then "Windows 10 RS1"
    else if i == 16 then "Windows 10 TH2"
    else "Windows 10 RTM"
  }

  function LadderEntryAt(i: int): LadderEntry
    requires 0 <= i < LADDER_LENGTH
  {
    LadderEntry(MinBuildAt(i), Classification(TagAt(i), NameAt(i)))
  }

  function RankAt(i: int): nat
    requires 0 <= i < LADDER_LENGTH
  {
    Rank(TagAt(i))
  }

  /** The index of the first entry at or after i (scanning newest first) whose threshold the
      build reaches. */
  function FirstReachedFrom(i: nat, build: int): Option<LadderIndex>
    requires i <= LADDER_LENGTH
    decreases LADDER_LENGTH - i
  {
    if i == LADDER_LENGTH then None
    else if MinBuildAt(i) <= build then Some(i)
    else FirstReachedFrom(i + 1, build)
  }

  /** The reference ladder: above the newest entry an insider build, below the oldest the
      unnamed Windows 10, otherwise the release the table selects. */
  function LadderReference(build: ULong): Classification {
    if build > NEWEST_KNOWN_BUILD then InsiderPreview
    else match FirstReachedFrom(0, build)
      case Some(i) => LadderEntryAt(i).release
      case None => Windows10Unnamed
  }

  /** Helper: each entry is strictly older than its predecessor. */
  lemma LadderAdjacentNewestFirst()
    ensures forall k :: 0 <= k < LADDER_LENGTH - 1 ==> MinBuildAt(k + 1) < MinBuildAt(k) && RankAt(k + 1) < RankAt(k)
  {
  }

  /** Thresholds and tags strictly decrease along the whole table. */
  lemma {:induction false} LadderNewestFirst(i: int, j: int)
    requires 0 <= i < j < LADDER_LENGTH
    ensures MinBuildAt(j) < MinBuildAt(i) && RankAt(j) < RankAt(i)
    decreases j - i
  {
    LadderAdjacentNewestFirst();
    if i + 1 < j {
      LadderNewestFirst(i + 1, j);
    }
  }

  /** The first reached entry is the one with the largest threshold not above the build, every
      earlier entry is above the build, and nothing is reached exactly when every threshold is. */
  lemma {:induction false} FirstReachedIsLargestThreshold(i: nat, build: int)
    requires i <= LADDER_LENGTH
    ensures FirstReachedFrom(i, build).None? <==> forall k :: i <= k < LADDER_LENGTH ==> MinBuildAt(k) > build
    ensures FirstReachedFrom(i, build).Some? ==>
      var j := FirstReachedFrom(i, build).value;
      && i <= j < LADDER_LENGTH
      && MinBuildAt(j) <= build
      && (forall k :: i <= k < j ==> MinBuildAt(k) > build)
      && (forall k :: i <= k < LADDER_LENGTH && MinBuildAt(k) <= build ==> MinBuildAt(k) <= MinBuildAt(j))
    decreases LADDER_LENGTH - i
  {
    if i < LADDER_LENGTH {
      if MinBuildAt(i) > build {
        assert FirstReachedFrom(i, build) == FirstReachedFrom(i + 1, build);
        FirstReachedIsLargestThreshold(i + 1, build);
      } else {
        assert FirstReachedFrom(i, build) == Some(i);
        ThresholdsFromAreAtMost(i);
      }
    }
  }

  /** Helper: no row at or after i has a larger threshold than row i. */
  lemma ThresholdsFromAreAtMost(i: int)
    requires 0 <= i < LADDER_LENGTH
    ensures forall k :: i <= k < LADDER_LENGTH ==> MinBuildAt(k) <= MinBuildAt(i)
  {
    forall k | i < k < LADDER_LENGTH
      ensures MinBuildAt(k) <= MinBuildAt(i)
    {
      LadderNewestFirst(i, k);
    }
  }

  /** A larger build never reaches an older entry. */
  lemma {:induction false} FirstReachedMonotone(i: nat, b1: int, b2: int)
    requires i <= LADDER_LENGTH
    requires b1 <= b2
    requires FirstReachedFrom(i, b1).Some?
    ensures FirstReachedFrom(i, b2).Some?
    ensures FirstReachedFrom(i, b2).value <= FirstReachedFrom(i, b1).value
    decreases LADDER_LENGTH - i
  {
    if MinBuildAt(i) > b2 {
      FirstReachedMonotone(i + 1, b1, b2);
    } else {
      FirstReachedIsLargestThreshold(i, b1);
    }
  }

  /** The source's if/else ladder agrees with the table on every build. */
  lemma Windows10ReleaseMatchesTable(build: ULong)
    ensures Windows10Release(build) == LadderReference(build)
  {
    FirstReachedIsLargestThreshold(0, build);
    if build <= NEWEST_KNOWN_BUILD {
      match FirstReachedFrom(0, build)
      case None =>
        assert MinBuildAt(LADDER_LENGTH - 1) > build;
      case Some(j) =>
        assert MinBuildAt(j) <= build && (j == 0 || MinBuildAt(j - 1) > build);
    }
  }

  // ---------------------------------------------------------------------------------------
  // Properties of the classification.

  /** A failed query classifies as ancient "Windows" whatever it would have reported. */
  lemma QueryFailureIsAncient()
    ensures ClassifyQuery(None) == Classification(Ancient, "Windows")
  {
  }

  /** Releases before 6.1 are ancient; 6.1, 6.2 and 6.3 are Windows 7, 8 and 8.1. */
  lemma Windows6Releases(v: OsVersionInfo)
    ensures v.majorVersion < 6 || (v.majorVersion == 6 && v.minorVersion == 0) ==>
      Classify(v) == Classification(Ancient, "Windows")
    ensures v.majorVersion == 6 && v.minorVersion == 1 ==> Classify(v) == Classification(Win7, "Windows 7")
    ensures v.majorVersion == 6 && v.minorVersion == 2 ==> Classify(v) == Classification(Win8, "Windows 8")
    ensures v.majorVersion == 6 && v.minorVersion == 3 ==> Classify(v) == Classification(Win81, "Windows 8.1")
  {
  }

  /** The boundaries of the 10.0 ladder. */
  lemma Windows10Boundaries()
    ensures Windows10Release(26101) == Classification(New, "Windows Insider Preview")
    ensures Windows10Release(26100) == Classification(Win11_24H2, "Windows 11 24H2")
    ensures Windows10Release(22631) == Classification(Win11_23H2, "Windows 11 23H2")
    ensures Windows10Release(22630) == Classification(Win11_22H2, "Windows 11 22H2")
    ensures Windows10Release(10240) == Classification(Win10, "Windows 10 RTM")
    ensures Windows10Release(10239) == Classification(Win10, "Windows 10")
  {
  }

  /** Above the newest known build every 10.0 build is an insider preview; exactly 26100 is
      24H2; below RTM every build is the unnamed Windows 10. */
  lemma Windows10Extremes(build: ULong)
    ensures build > NEWEST_KNOWN_BUILD <==> Windows10Release(build) == InsiderPreview
    ensures build == NEWEST_KNOWN_BUILD <==> Windows10Release(build).tag == Win11_24H2
    ensures build < WINDOWS_10_RTM_BUILD <==> Windows10Release(build) == Windows10Unnamed
  {
  }

  /** The (major, minor) pairs the ladder names. */
  predicate ListedRelease(major: ULong, minor: ULong) {
    major < 6 || (major == 6 && minor <= 3) || (major == 10 && minor == 0)
  }

  /** A pair the ladder does not name (6.4, 7.x, 10.1, 11.0, ...) is the generic new "Windows". */
  lemma UnlistedReleaseIsNew(v: OsVersionInfo)
    ensures !ListedRelease(v.majorVersion, v.minorVersion) <==> Classify(v) == UnknownWindows
  {
  }

  /** The sentinel tag `New` is given exactly to unlisted pairs and to 10.0 builds above the
      newest known one; it is never given to a failed query. */
  lemma NewTagExactly(q: Option<OsVersionInfo>)
    ensures ClassifyQuery(q).tag == New <==>
      q.Some? && (!ListedRelease(q.value.majorVersion, q.value.minorVersion) ||
                  (q.value.majorVersion == 10 && q.value.minorVersion == 0 && q.value.buildNumber > NEWEST_KNOWN_BUILD))
  {
  }

  /** The names each tag may be shown with: one per tag, except that the ancient and new
      sentinels and Windows 10 RTM have two. */
  function NamesOf(t: VersionTag): set<string> {
    match t
    case Ancient => {"Windows"}
    case Win7 => {"Windows 7"}
    case Win8 => {"Windows 8"}
    case Win81 => {"Windows 8.1"}
    case Win10 => {"Windows 10", "Windows 10 RTM"}
    case Win10TH2 => {"Windows 10 TH2"}
    case Win10RS1 => {"Windows 10 RS1"}
    case Win10RS2 => {"Windows 10 RS2"}
    case Win10RS3 => {"Windows 10 RS3"}
    case Win10RS4 => {"Windows 10 RS4"}
    case Win10RS5 => {"Windows 10 RS5"}
    case Win10_19H1 => {"Windows 10 19H1"}
    case Win10_19H2 => {"Windows 10 19H2"}
    case Win10_20H1 => {"Windows 10 20H1"}
    case Win10_20H2 => {"Windows 10 20H2"}
    case Win10_21H1 => {"Windows 10 21H1"}
    case Win10_21H2 => {"Windows 10 21H2"}
    case Win10_22H2 => {"Windows 10 22H2"}
    case Win11 => {"Windows 11"}
    case Win11_22H2 => {"Windows 11 22H2"}
    case Win11_23H2 => {"Windows 11 23H2"}
    case Win11_24H2 => {"Windows 11 24H2"}
    case New => {"Windows", "Windows Insider Preview"}
  }

  /** Helper: every row of the table pairs its tag with one of that tag's names. */
  lemma TableNamesConsistent(j: int)
    requires 0 <= j < LADDER_LENGTH
    ensures NameAt(j) in NamesOf(TagAt(j))
  {
  }

  /** Helper: the 10.0 ladder pairs each tag with one of its names. */
  lemma Windows10NamesConsistent(build: ULong)
    ensures Windows10Release(build).name in NamesOf(Windows10Release(build).tag)
  {
    Windows10ReleaseMatchesTable(build);
    if build <= NEWEST_KNOWN_BUILD && FirstReachedFrom(0, build).Some? {
      FirstReachedIsLargestThreshold(0, build);
      TableNamesConsistent(FirstReachedFrom(0, build).value);
    }
  }

  /** Helper: the tag the table selects for a build it reaches is the tag of the reached row. */
  lemma LadderReferenceTag(build: ULong)
    requires build <= NEWEST_KNOWN_BUILD && FirstReachedFrom(0, build).Some?
    ensures FirstReachedFrom(0, build).value < LADDER_LENGTH
    ensures LadderReference(build).tag == TagAt(FirstReachedFrom(0, build).value)
  {
    FirstReachedIsLargestThreshold(0, build);
  }

  /** Helper: between RTM and the newest known build the table is monotone. */
  lemma LadderReferenceMonotoneInRange(b1: ULong, b2: ULong)
    requires WINDOWS_10_RTM_BUILD <= b1 <= b2 <= NEWEST_KNOWN_BUILD
    ensures Rank(LadderReference(b1).tag) <= Rank(LadderReference(b2).tag)
  {
    FirstReachedIsLargestThreshold(0, b1);
    assert MinBuildAt(LADDER_LENGTH - 1) <= b1;
    FirstReachedMonotone(0, b1, b2);
    LadderReferenceTag(b1);
    LadderReferenceTag(b2);
    var j1, j2 := FirstReachedFrom(0, b1).value, FirstReachedFrom(0, b2).value;
    if j2 < j1 { LadderNewestFirst(j2, j1); }
  }

  /** Helper: every build the table selects a release for ranks at least the unnamed
      Windows 10. */
  lemma LadderReferenceAtLeastWindows10(build: ULong)
    ensures Rank(LadderReference(build).tag) >= Rank(Win10)
  {
    if build <= NEWEST_KNOWN_BUILD && FirstReachedFrom(0, build).Some? {
      LadderReferenceTag(build);
      var j := FirstReachedFrom(0, build).value;
      if j < LADDER_LENGTH - 1 { LadderNewestFirst(j, LADDER_LENGTH - 1); }
    }
  }

  /** The table never selects an earlier entry for a larger build. */
  lemma LadderReferenceMonotone(b1: ULong, b2: ULong)
    requires b1 <= b2
    ensures Rank(LadderReference(b1).tag) <= Rank(LadderReference(b2).tag)
  {
    if b2 > NEWEST_KNOWN_BUILD {
      assert LadderReference(b2).tag == New;
    } else if b1 >= WINDOWS_10_RTM_BUILD {
      LadderReferenceMonotoneInRange(b1, b2);
    } else {
      FirstReachedIsLargestThreshold(0, b1);
      assert LadderReference(b1).tag == Win10;
      LadderReferenceAtLeastWindows10(b2);
    }
  }

  /** Within 10.0, a larger build never gives an earlier ladder entry. */
  lemma Windows10Monotone(b1: ULong, b2: ULong)
    requires b1 <= b2
    ensures Rank(Windows10Release(b1).tag) <= Rank(Windows10Release(b2).tag)
  {
    Windows10ReleaseMatchesTable(b1);
    Windows10ReleaseMatchesTable(b2);
    LadderReferenceMonotone(b1, b2);
  }

  /** The heap decision reads only `WindowsVersion >= WINDOWS_8`: that holds exactly when the
      query succeeded and reported 6.2 or later. */
  lemma AtLeastWindows8Exactly(q: Option<OsVersionInfo>)
    ensures Rank(ClassifyQuery(q).tag) >= Rank(Win8) <==>
      q.Some? && !(q.value.majorVersion < 6 || (q.value.majorVersion == 6 && q.value.minorVersion < 2))
  {
    if q.Some? && q.value.majorVersion == 10 && q.value.minorVersion == 0 {
      Windows10Monotone(0, q.value.buildNumber);
    }
  }
}
