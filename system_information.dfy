/** The basic system information of PhInitializeSystemInformation: the record the rest of the
    library reads (PH_SYSTEM_BASIC_INFORMATION), its defaults, and how it is filled from the
    kernel's SYSTEM_BASIC_INFORMATION. */
module SystemInformation {
  import opened NtTypes

  const PAGE_SIZE: ULong := 0x1000

  /** CCHAR, the type of the kernel's processor count. */
  type SChar = x: int | -128 <= x < 128

  /** SYSTEM_BASIC_INFORMATION as the query leaves it in the caller's zero-initialised local;
      only the fields the source reads are kept. */
  datatype SystemBasicInformation = SystemBasicInformation(
    timerResolution: ULong,
    pageSize: ULong,
    numberOfPhysicalPages: ULong,
    allocationGranularity: ULong,
    maximumUserModeAddress: ULongPtr,
    activeProcessorsAffinityMask: KAffinity,
    numberOfProcessors: SChar)

  /** The local before the query writes to it (`= { 0 }`). */
  const ZeroSystemBasicInformation := SystemBasicInformation(0, 0, 0, 0, 0, 0, 0)

  /** PH_SYSTEM_BASIC_INFORMATION: page size and processor count are narrowed to 16 bits. */
  datatype PhSystemBasicInformation = PhSystemBasicInformation(
    pageSize: UShort,
    numberOfProcessors: UShort,
    numberOfPhysicalPages: ULong,
    maximumTimerResolution: ULong,
    allocationGranularity: ULong,
    maximumUserModeAddress: ULongPtr,
    activeProcessorsAffinityMask: KAffinity)

  /** The zero-initialised global before bootstrap. */
  const ZeroPhSystemBasicInformation := PhSystemBasicInformation(0, 0, 0, 0, 0, 0, 0)

  /** The conservative values written before the query. */
  const DefaultPhSystemBasicInformation :=
    PhSystemBasicInformation(PAGE_SIZE, 1, ULONG_MAX, 0x2625A, 0x10000, 0x10000, USHRT_MAX)

  /** The record read field by field from the query's output, whatever status the query
      returned. */
  function FromQuery(info: SystemBasicInformation): PhSystemBasicInformation {
    PhSystemBasicInformation(
      ToUShort(info.pageSize),
      ToUShort(info.numberOfProcessors),
      info.numberOfPhysicalPages,
      info.timerResolution,
      info.allocationGranularity,
      info.maximumUserModeAddress,
      info.activeProcessorsAffinityMask)
  }

  /** The narrowing keeps the kernel's values exactly when they fit: the page size when it is
      below 64 KiB, the processor count when it is non-negative. A negative CCHAR count is
      sign-extended, so it shows as a count of at least 0xFF80. */
  lemma NarrowingIsExactWhenItFits(info: SystemBasicInformation)
    ensures FromQuery(info).pageSize == info.pageSize <==> info.pageSize < TWO_TO_THE_16
    ensures info.numberOfProcessors >= 0 ==> FromQuery(info).numberOfProcessors == info.numberOfProcessors
    ensures info.numberOfProcessors < 0 ==>
      FromQuery(info).numberOfProcessors == TWO_TO_THE_16 + info.numberOfProcessors >= 0xFF80
  {
  }

  /** Every other field is carried over unchanged and nothing of the defaults survives: a query
      that wrote nothing leaves an all-zero record, not the defaults. */
  lemma DefaultsDoNotSurvive(info: SystemBasicInformation)
    ensures FromQuery(info).numberOfPhysicalPages == info.numberOfPhysicalPages
    ensures FromQuery(info).maximumTimerResolution == info.timerResolution
    ensures FromQuery(info).allocationGranularity == info.allocationGranularity
    ensures FromQuery(info).maximumUserModeAddress == info.maximumUserModeAddress
    ensures FromQuery(info).activeProcessorsAffinityMask == info.activeProcessorsAffinityMask
    ensures FromQuery(ZeroSystemBasicInformation) == ZeroPhSystemBasicInformation
    ensures FromQuery(ZeroSystemBasicInformation) != DefaultPhSystemBasicInformation
  {
  }
}
