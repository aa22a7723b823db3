# phlib bootstrap (global.c) in Dafny

This project models the bootstrap unit of phlib, the support library of System Informer
(`phlib/global.c`). `PhInitializePhLib` runs a fixed sequence of initializers:

- It records the application name and image base.
- It classifies the running Windows release from the version query.
- It fills `PhSystemBasicInformation` from the kernel's basic information.
- It provisions the library's private heap.
- It runs three further required initializers.
- It discovers the processor group topology.

Every call into the operating system or into another phlib unit is an input value: the
`Environment` datatype of `Global`, or a parameter of the method concerned.

Modules, in dependency order:

- `NtTypes`: integer widths (UCHAR, USHORT, ULONG, ULONG_PTR/KAFFINITY), the 16-bit truncating
  cast `ToUShort`, NTSTATUS values, `Option`.
- `WindowsVersion`: the classification ladder `Classify`/`ClassifyQuery` exactly as the
  source's if/else chain, and an independent table of the 10.0 releases (`MinBuildAt`, `TagAt`,
  `NameAt`, `LadderReference`: the entry with the largest threshold not above the build). The
  ladder is proved to agree with the table, and the classification is proved monotone,
  consistent and total.
- `SystemInformation`: `SYSTEM_BASIC_INFORMATION`, `PH_SYSTEM_BASIC_INFORMATION`, the defaults
  and `FromQuery`, the record the source ends up writing.
- `HeapProvisioning`: `ProvisionHeap`, the segment-heap / classic-heap fallback chain as a
  function of the version tag, the prior handle and what each creation returns, with the calls
  made in order.
- `ProcessorTopology`: `DiscoverTopology`, the value the discovery writes, and the 16-bit
  summing loop `SumActiveProcessors` with its invariant.
- `Bootstrap`: `Boot`, the fail-fast sequencing, as the list of initializers run and the status.
- `Global`: class `PhLib`, whose fields are the globals of `global.c`. Its methods are the
  initializers, each proved against the specification functions above. It also has three
  fields that record what the unit did to the outside world: the heap calls, the query buffers
  freed and the initializers run.

The processor discovery allocates the per-group count array whenever the query reports more
than one group. When the 16-bit sum is then 0, the mask array is replaced by the one-entry
array and the count array stays allocated. The model keeps this behaviour
(`ProcessorTopology.CollapsedShape`). The heap handle on entry is a field: a handle already
held when the version is below WINDOWS_8 is kept (phlib/global.c:346). At bootstrap it is NULL.

## Model

| member | source | states |
|---|---|---|
| NtTypes.ToUShort | phlib/global.c:146-147 | the `(USHORT)` cast: keeps values below 2^16 and is congruent to its argument modulo 2^16 |
| WindowsVersion.ClassifyQuery | phlib/global.c:168-324 | a 10.0 release is the one the independent release table selects for its build (largest threshold not above it); every outcome, a failed query included, pairs its tag with one of the names that tag is shown with |
| WindowsVersion.QueryFailureIsAncient | phlib/global.c:168-173 | a failed version query yields (WINDOWS_ANCIENT, "Windows") |
| WindowsVersion.Windows6Releases | phlib/global.c:193-215 | major < 6 or 6.0 is ancient; 6.1, 6.2 and 6.3 are Windows 7, 8 and 8.1 with their names |
| WindowsVersion.LadderNewestFirst | phlib/global.c:224-313 | thresholds and tags strictly decrease down the whole 10.0 table |
| WindowsVersion.FirstReachedIsLargestThreshold | phlib/global.c:224-318 | the scan finds nothing exactly when every threshold is above the build; otherwise it finds the largest threshold not above the build, and every earlier row is above it |
| WindowsVersion.FirstReachedMonotone | phlib/global.c:224-318 | a larger build reaches a row at least as new |
| WindowsVersion.Windows10ReleaseMatchesTable | phlib/global.c:217-318 | the source's if/else ladder equals the table reference on every build |
| WindowsVersion.Windows10Boundaries | phlib/global.c:219-318 | 26101 is an insider preview, 26100 is 24H2, 22631 is 23H2, 22630 is 22H2, 10240 is "Windows 10 RTM", 10239 is "Windows 10" |
| WindowsVersion.Windows10Extremes | phlib/global.c:219-318 | insider preview iff the build is above 26100, 24H2 iff it is exactly 26100, unnamed Windows 10 iff it is below 10240 |
| WindowsVersion.UnlistedReleaseIsNew | phlib/global.c:193-324 | a (major, minor) pair the ladder does not list classifies as (WINDOWS_NEW, "Windows"), and only such a pair does |
| WindowsVersion.NewTagExactly | phlib/global.c:168-324 | WINDOWS_NEW is given exactly to unlisted pairs and to 10.0 builds above 26100, never to a failed query |
| WindowsVersion.LadderReferenceMonotone | phlib/global.c:217-318 | the table reference never selects an earlier release for a larger build |
| WindowsVersion.Windows10Monotone | phlib/global.c:217-318 | within 10.0 a larger build never gives an earlier ladder entry |
| WindowsVersion.AtLeastWindows8Exactly | phlib/global.c:334 | the heap's `WindowsVersion >= WINDOWS_8` test holds exactly when the query succeeded and reported 6.2 or later |
| SystemInformation.NarrowingIsExactWhenItFits | phlib/global.c:146-147 | the page size survives the 16-bit narrowing iff it is below 2^16; a non-negative processor count survives; a negative CCHAR count shows as 2^16 + n, at least 0xFF80 |
| SystemInformation.DefaultsDoNotSurvive | phlib/global.c:125-152 | the other five fields are copied from the query unchanged; a query that wrote nothing leaves zeros, not the defaults |
| HeapProvisioning.SegmentAttemptedExactly | phlib/global.c:334-344 | the segment heap is created iff the tag is at least WINDOWS_8, and then first |
| HeapProvisioning.ClassicAttemptedExactly | phlib/global.c:346-357 | the classic heap (2 MB reserve, 1 MB commit) is created iff no handle is held after the segment step |
| HeapProvisioning.FailsExactlyWhenAllCreationsFail | phlib/global.c:346-370 | TRUE iff a handle is held; from a NULL handle, FALSE iff every attempted creation returned NULL |
| HeapProvisioning.LfhOnlyOnClassicHeap | phlib/global.c:348-367 | the LFH request is made only for the created classic heap, right after its creation, as the last call |
| HeapProvisioning.SegmentHeapIsKept | phlib/global.c:334-346 | a created segment heap becomes the handle and nothing else is created |
| ProcessorTopology.AccumulatedIsSumModulo | phlib/global.c:403-408 | adding the counts into a wrapping 16-bit accumulator gives the mathematical sum modulo 2^16 |
| ProcessorTopology.SumActiveProcessors | phlib/global.c:403-408 | the summing loop returns the sum of the active groups' counts modulo 2^16 |
| ProcessorTopology.DiscoveryIsConsistent | phlib/global.c:377-441 | every discovered topology has one mask per group and at least one group; several groups iff not single-group, and then one count per group whose 16-bit sum is the nonzero processor count |
| ProcessorTopology.FastPathMatchesFallback | phlib/global.c:377-441 | the fast path and the general path's fallback write the same single-group flag, processor count, group count and masks; the fast path is exactly the failed-query fallback |
| ProcessorTopology.GeneralPath | phlib/global.c:397-433 | off the fast path, multi-group iff the query succeeded with more than one group and a nonzero 16-bit sum; then the group count, the sum and both arrays copied element-wise |
| ProcessorTopology.CollapsedShape | phlib/global.c:410-441 | otherwise the single-group shape from the basic information; the count array is written iff the query succeeded off the fast path with more than one group |
| ProcessorTopology.QueryBufferFreedOnce | phlib/global.c:397-423 | the query buffer is freed once when the query ran and succeeded, never otherwise |
| ProcessorTopology.ThreeGroupExample | phlib/global.c:403-433 | groups of 4, 8 and 2 processors give 14 processors in 3 groups with the copied counts and masks |
| ProcessorTopology.FailedQueryExample | phlib/global.c:389-441 | a failed query off the fast path gives one group with the basic information's count and mask |
| Bootstrap.BootSucceedsExactly | phlib/global.c:71-85 | STATUS_SUCCESS iff heap, queued lock, ref and base initialization all succeed; otherwise STATUS_UNSUCCESSFUL |
| Bootstrap.BootIsFailFast | phlib/global.c:67-85 | the initializers run as a prefix of the fixed order; each required one runs iff all earlier ones succeeded; processor discovery runs iff the result is success |
| Global.PhLib.constructor | phlib/global.c:39-48 | the static initial values of the globals |
| Global.PhLib.InitializeWindowsInformation | phlib/global.c:155-325 | WindowsVersion and WindowsVersionName are the classification of the query; PhOsVersion is copied only when the query succeeded |
| Global.PhLib.InitializeSystemInformation | phlib/global.c:121-153 | after the defaults are written, the record is overwritten from the query output whatever its status, with page size and processor count taken modulo 2^16 |
| Global.PhLib.HeapInitialization | phlib/global.c:327-371 | the new handle, the result and the heap calls made are those of the fallback chain for the current WindowsVersion; TRUE iff the handle is non-null, whatever the LFH call returns |
| Global.PhLib.SetSingleProcessorGroup | phlib/global.c:383-387 | single group, one group, the basic information's processor count, and a fresh one-entry mask array holding its affinity mask |
| Global.PhLib.CopyGroups | phlib/global.c:412-419 | fresh count and mask arrays equal, element by element, to the active groups' counts and masks |
| Global.PhLib.InitializeProcessorInformation | phlib/global.c:373-445 | returns TRUE; the processor globals hold the discovered topology, with fresh arrays where written, and keep the topology invariant; one query buffer is freed iff the query ran and succeeded |
| Global.PhLib.RunRequiredInitializers | phlib/global.c:71-81 | the heap, then the three other required initializers, stopping at the first failure, with the status and steps of the required sequence |
| Global.PhLib.InitializeRequired | phlib/global.c:64-81 | name and image base recorded, version (PhOsVersion copied only on success), basic information and heap written as specified, and the steps before processor discovery run fail-fast |
| Global.PhLib.InitializePhLib | phlib/global.c:55-86 | the status and the initializers run are those of the fail-fast sequence; PhOsVersion is copied only when the version query succeeded; on success the processor globals hold the discovered topology and the count array keeps its value when the discovery does not write it; on failure they are unchanged |

## Left out

- `PhIsExecutingInWow64` (phlib/global.c:88-106): a memoization that tolerates races, built on acquire/release ordering; concurrency is not modelled.
- `PhInitializeRuntimeInformation` (phlib/global.c:108-119): it only configures the C runtime. The model records only that it runs first.
- `PhExitApplication` (phlib/global.c:447-477): console flushing and process termination are I/O.
- WPP tracing (`WPP_INIT_TRACING`, `PhTraceInfo`, `WPP_CLEANUP`): logging only.
- The rendering of `WindowsVersionString` into its 40-character buffer through `PhFormatToBuffer` (phlib/global.c:175-186): the formatter is not part of this model.
- The `PH_DEBUG_HEAP` build variant (phlib/global.c:331-332), and the debug-only asserts comparing the enumeration with the shared counters (phlib/global.c:425-426). The asserts are not made preconditions.
- The foreign calls: `RtlGetVersion`, `NtQuerySystemInformation`, `PhGetSystemLogicalProcessorInformation`, `RtlCreateHeap`, `RtlSetHeapInformation`, `PhQueuedLockInitialization`, `PhRefInitialization` and `PhBaseInitialization`. Their results are inputs. `PhAllocate` is assumed to succeed; its failure, which the source does not check, is not modelled. `PhFree` is counted in `queryBuffersFreed`.
- The numeric values of the `WINDOWS_*` constants are defined in a header that is not part of this model. They are an ordered enumeration whose `Rank` follows the release order, which is all the source compares.
- The `HEAP_*` flag values, `MAXIMUM_PROC_PER_GROUP` and the field widths of the system structures come from headers that are not part of this model. The flags are enumeration values. `MAXIMUM_PROC_PER_GROUP` is the 64-bit build's 64. The kernel's processor count is a signed 8-bit CCHAR.
- No "keep the defaults when the basic-information query fails" branch exists. The source deliberately ignores the query's status (phlib/global.c:127-129), so the defaults never survive (`SystemInformation.DefaultsDoNotSurvive`).
