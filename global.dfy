/** The globals of phlib's bootstrap unit and the initializers that write them. Every call into
    the operating system or into another phlib unit is an input: the version query's result,
    the basic-information query's output, what each heap creation returns, what the three
    other required initializers return, the shared user data counters and the group query's
    result. */
module Global {
  import opened NtTypes
  import opened WindowsVersion
  import opened SystemInformation
  import opened HeapProvisioning
  import opened ProcessorTopology
  import opened Bootstrap

  /** Everything PhInitializePhLib learns from outside the unit, in the order it asks. */
  datatype Environment = Environment(
    versionQuery: Option<OsVersionInfo>,         // RtlGetVersion: None when it fails
    basicQueryStatus: NtStatus,                  // NtQuerySystemInformation's status (ignored)
    basicQuery: SystemBasicInformation,          // ... and what it left in its output buffer
    segmentHeap: Handle,                         // RtlCreateHeap for the segment heap
    classicHeap: Handle,                         // RtlCreateHeap for the classic heap
    lfhStatus: NtStatus,                         // RtlSetHeapInformation (ignored)
    queuedLockOk: bool,                          // PhQueuedLockInitialization
    refOk: bool,                                 // PhRefInitialization
    baseOk: bool,                                // PhBaseInitialization
    shared: SharedCounters,                      // USER_SHARED_DATA
    groupQuery: Option<GroupRelation>)           // PhGetSystemLogicalProcessorInformation

  class PhLib {
    var applicationName: string                  // PhApplicationName
    var instanceHandle: nat                      // PhInstanceHandle
    var heapHandle: Handle                       // PhHeapHandle
    var osVersion: OsVersionInfo                 // PhOsVersion
    var basicInformation: PhSystemBasicInformation  // PhSystemBasicInformation
    var windowsVersion: VersionTag               // WindowsVersion
    var windowsVersionName: string               // WindowsVersionName

    // PhSystemProcessorInformation
    var singleProcessorGroup: bool
    var numberOfProcessors: UShort
    var numberOfProcessorGroups: UShort
    var activeProcessorCount: array?<UShort>
    var activeProcessorsAffinityMasks: array?<KAffinity>

    // What the unit did to the outside world, in order.
    var heapCalls: seq<HeapCall>                 // heap primitives called
    var queryBuffersFreed: nat                   // group query buffers passed to PhFree
    var ran: seq<Initializer>                    // initializers PhInitializePhLib called

    /** The static initial values of the globals. */
    constructor ()
      ensures heapHandle == NULL && instanceHandle == 0 && applicationName == []
      ensures windowsVersion == New && windowsVersionName == "Windows"
      ensures osVersion == OsVersionInfo(0, 0, 0) && basicInformation == ZeroPhSystemBasicInformation
      ensures !singleProcessorGroup && numberOfProcessors == 0 && numberOfProcessorGroups == 0
      ensures activeProcessorCount == null && activeProcessorsAffinityMasks == null
      ensures heapCalls == [] && queryBuffersFreed == 0 && ran == []
    {
      applicationName, instanceHandle, heapHandle := [], 0, NULL;
      osVersion := OsVersionInfo(0, 0, 0);
      basicInformation := ZeroPhSystemBasicInformation;
      windowsVersion, windowsVersionName := New, "Windows";
      singleProcessorGroup, numberOfProcessors, numberOfProcessorGroups := false, 0, 0;
      activeProcessorCount, activeProcessorsAffinityMasks := null, null;
      heapCalls, queryBuffersFreed, ran := [], 0, [];
    }

    /** PhInitializeWindowsInformation: classify the reported version; PhOsVersion is copied
        only when the query succeeded. */
    method InitializeWindowsInformation(versionQuery: Option<OsVersionInfo>)
      modifies this`windowsVersion, this`windowsVersionName, this`osVersion
      ensures windowsVersion == ClassifyQuery(versionQuery).tag
      ensures windowsVersionName == ClassifyQuery(versionQuery).name
      ensures versionQuery.None? ==> windowsVersion == Ancient && windowsVersionName == "Windows"
      ensures osVersion == if versionQuery.Some? then versionQuery.value else old(osVersion)
    {
      if versionQuery.None? {
        windowsVersion := Ancient;
        windowsVersionName := "Windows";
        return;
      }
      var info := versionQuery.value;
      osVersion := info;
      var c := Classify(info);
      windowsVersion := c.tag;
      windowsVersionName := c.name;
    }

    /** PhInitializeSystemInformation: write the defaults, then overwrite every field from the
        query's output whatever status it returned. */
    method InitializeSystemInformation(status: NtStatus, info: SystemBasicInformation)
      modifies this`basicInformation
      ensures basicInformation == FromQuery(info)
      ensures basicInformation.pageSize == info.pageSize % TWO_TO_THE_16
      ensures basicInformation.numberOfProcessors == info.numberOfProcessors % TWO_TO_THE_16
      ensures basicInformation.activeProcessorsAffinityMask == info.activeProcessorsAffinityMask
    {
      basicInformation := basicInformation.(pageSize := PAGE_SIZE);
      basicInformation := basicInformation.(numberOfProcessors := 1);
      basicInformation := basicInformation.(numberOfPhysicalPages := ULONG_MAX);
      basicInformation := basicInformation.(maximumTimerResolution := 0x2625A);
      basicInformation := basicInformation.(allocationGranularity := 0x10000);
      basicInformation := basicInformation.(maximumUserModeAddress := 0x10000);
      basicInformation := basicInformation.(activeProcessorsAffinityMask := USHRT_MAX);
      assert basicInformation == DefaultPhSystemBasicInformation;

      basicInformation := basicInformation.(pageSize := ToUShort(info.pageSize));
      basicInformation := basicInformation.(numberOfProcessors := ToUShort(info.numberOfProcessors));
      basicInformation := basicInformation.(numberOfPhysicalPages := info.numberOfPhysicalPages);
      basicInformation := basicInformation.(maximumTimerResolution := info.timerResolution);
      basicInformation := basicInformation.(allocationGranularity := info.allocationGranularity);
      basicInformation := basicInformation.(maximumUserModeAddress := info.maximumUserModeAddress);
      basicInformation := basicInformation.(activeProcessorsAffinityMask := info.activeProcessorsAffinityMask);
    }

    /** PhHeapInitialization: the segment heap from WINDOWS_8 on, else (or if that returned NULL)
        the classic heap with the LFH front end; FALSE when the classic heap is NULL too. */
    method HeapInitialization(segment: Handle, classic: Handle, lfhStatus: NtStatus) returns (ok: bool)
      modifies this`heapHandle, this`heapCalls
      ensures var o := ProvisionHeap(windowsVersion, old(heapHandle), segment, classic);
        heapHandle == o.handle && ok == o.succeeded && heapCalls == old(heapCalls) + o.calls
      ensures ok <==> heapHandle != NULL
    {
      if Rank(windowsVersion) >= Rank(Win8) {
        heapHandle := segment;
        heapCalls := heapCalls + [SegmentHeapCreation];
      }

      if heapHandle == NULL {
        heapHandle := classic;
        heapCalls := heapCalls + [ClassicHeapCreation];

        if heapHandle == NULL {
          return false;
        }

        heapCalls := heapCalls + [SetCompatibilityLfh(heapHandle)];
      }
      return true;
    }

    /** The processor information globals hold the topology t. */
    ghost predicate HoldsTopology(t: Topology)
      reads this, activeProcessorCount, activeProcessorsAffinityMasks
    {
      && singleProcessorGroup == t.singleProcessorGroup
      && numberOfProcessors == t.numberOfProcessors
      && numberOfProcessorGroups == t.numberOfProcessorGroups
      && activeProcessorsAffinityMasks != null
      && activeProcessorsAffinityMasks[..] == t.activeProcessorsAffinityMasks
      && (t.activeProcessorCount.Some? ==>
            activeProcessorCount != null && activeProcessorCount[..] == t.activeProcessorCount.value)
    }

    /** The processor information invariant: a nonempty mask array with one mask per group and,
        for several groups, a count array whose 16-bit sum is the processor count. */
    ghost predicate ValidTopology()
      reads this, activeProcessorCount, activeProcessorsAffinityMasks
    {
      && activeProcessorsAffinityMasks != null
      && activeProcessorsAffinityMasks.Length == numberOfProcessorGroups >= 1
      && (singleProcessorGroup <==> numberOfProcessorGroups == 1)
      && (!singleProcessorGroup ==>
            && activeProcessorCount != null
            && activeProcessorCount.Length == numberOfProcessorGroups
            && numberOfProcessors == Sum(activeProcessorCount[..]) % TWO_TO_THE_16 != 0)
    }

    /** The single-group shape from the basic information, written identically by the fast
        path and by the general path's fallback. */
    method SetSingleProcessorGroup()
      modifies this`singleProcessorGroup, this`numberOfProcessors, this`numberOfProcessorGroups,
               this`activeProcessorsAffinityMasks
      ensures singleProcessorGroup && numberOfProcessorGroups == 1
      ensures numberOfProcessors == basicInformation.numberOfProcessors
      ensures fresh(activeProcessorsAffinityMasks)
      ensures activeProcessorsAffinityMasks[..] == [basicInformation.activeProcessorsAffinityMask]
    {
      singleProcessorGroup := true;
      numberOfProcessors := basicInformation.numberOfProcessors;
      numberOfProcessorGroups := 1;
      activeProcessorsAffinityMasks := new KAffinity[1];
      activeProcessorsAffinityMasks[0] := basicInformation.activeProcessorsAffinityMask;
    }

    /** The general path's copy loop: fresh per-group count and mask arrays filled element-wise
        from the query buffer. */
    static method CopyGroups(info: GroupRelation) returns (counts: array<UShort>, masks: array<KAffinity>)
      requires WellFormed(info)
      ensures fresh(counts) && fresh(masks)
      ensures counts[..] == CountsOf(ActiveGroups(info))
      ensures masks[..] == MasksOf(ActiveGroups(info))
    {
      var groupCount := info.activeGroupCount;
      counts := new UShort[groupCount];
      masks := new KAffinity[groupCount];
      var i: UShort := 0;
      while i < groupCount
        invariant 0 <= i <= groupCount
        invariant forall k :: 0 <= k < i ==>
          counts[k] == info.groupInfo[k].activeProcessorCount &&
          masks[k] == info.groupInfo[k].activeProcessorMask
      {
        counts[i] := info.groupInfo[i].activeProcessorCount;
        masks[i] := info.groupInfo[i].activeProcessorMask;
        i := i + 1;
      }
    }

    /** PhInitializeProcessorInformation. The per-group count array is allocated whenever the
        query reports more than one group and is kept even when the sum is 0 and the masks are
        replaced by the single-group array. */
    method InitializeProcessorInformation(shared: SharedCounters, groupQuery: Option<GroupRelation>)
      returns (r: bool)
      requires QueryWellFormed(groupQuery)
      modifies this`singleProcessorGroup, this`numberOfProcessors, this`numberOfProcessorGroups
      modifies this`activeProcessorCount, this`activeProcessorsAffinityMasks, this`queryBuffersFreed
      ensures r
      ensures var t := DiscoverTopology(shared, basicInformation.numberOfProcessors,
                                        basicInformation.activeProcessorsAffinityMask, groupQuery);
        && HoldsTopology(t)
        && fresh(activeProcessorsAffinityMasks)
        && (t.activeProcessorCount.Some? ==> fresh(activeProcessorCount))
        && (t.activeProcessorCount.None? ==> activeProcessorCount == old(activeProcessorCount))
      ensures ValidTopology()
      ensures queryBuffersFreed == old(queryBuffersFreed) + QueryBuffersFreed(shared, groupQuery)
    {
      ghost var t := DiscoverTopology(shared, basicInformation.numberOfProcessors,
                                      basicInformation.activeProcessorsAffinityMask, groupQuery);
      DiscoveryIsConsistent(shared, basicInformation.numberOfProcessors,
                            basicInformation.activeProcessorsAffinityMask, groupQuery);
      if shared.activeGroupCount == 1 && shared.activeProcessorCount > 0 &&
         shared.activeProcessorCount <= MAXIMUM_PROC_PER_GROUP
      {
        SetSingleProcessorGroup();
      } else {
        var groupCount: UShort := 0;
        var processorSum: UShort := 0;

        if groupQuery.Some? {
          var info := groupQuery.value;
          groupCount := info.activeGroupCount;
          processorSum := SumActiveProcessors(info);

          if groupCount > 1 {
            activeProcessorCount, activeProcessorsAffinityMasks := CopyGroups(info);
          }

          queryBuffersFreed := queryBuffersFreed + 1;
        }
        assert groupCount == QueriedGroupCount(groupQuery) && processorSum == QueriedProcessorSum(groupQuery);

        if groupCount > 1 && processorSum != 0 {
          singleProcessorGroup := false;
          numberOfProcessors := processorSum;
          numberOfProcessorGroups := groupCount;
        } else {
          SetSingleProcessorGroup();
        }
      }
      return true;
    }

    /** The required initializers, from the heap to the base support, stopping at the first
        that fails; `ran` gains the steps from Heap on, as Boot lists them. */
    method RunRequiredInitializers(env: Environment) returns (status: NtStatus)
      modifies this`heapHandle, this`heapCalls, this`ran
      ensures var h := ProvisionHeap(windowsVersion, old(heapHandle), env.segmentHeap, env.classicHeap);
        && heapHandle == h.handle
        && heapCalls == old(heapCalls) + h.calls
        && var o := RequiredSteps(h.succeeded, env.queuedLockOk, env.refOk, env.baseOk);
           status == o.status && ran == old(ran) + o.ran
    {
      ran := ran + [Heap];
      var ok := HeapInitialization(env.segmentHeap, env.classicHeap, env.lfhStatus);
      if !ok {
        return STATUS_UNSUCCESSFUL;
      }
      ran := ran + [QueuedLock];
      if !env.queuedLockOk {
        return STATUS_UNSUCCESSFUL;
      }
      ran := ran + [Ref];
      if !env.refOk {
        return STATUS_UNSUCCESSFUL;
      }
      ran := ran + [Base];
      if !env.baseOk {
        return STATUS_UNSUCCESSFUL;
      }
      return STATUS_SUCCESS;
    }

    /** The part of PhInitializePhLib before processor discovery: the unconditional steps, then
        the required initializers up to the first that fails. */
    method InitializeRequired(name: string, imageBase: nat, env: Environment) returns (status: NtStatus)
      modifies this`applicationName, this`instanceHandle, this`ran
      modifies this`windowsVersion, this`windowsVersionName, this`osVersion, this`basicInformation
      modifies this`heapHandle, this`heapCalls
      ensures applicationName == name && instanceHandle == imageBase
      ensures windowsVersion == ClassifyQuery(env.versionQuery).tag
      ensures windowsVersionName == ClassifyQuery(env.versionQuery).name
      ensures osVersion == if env.versionQuery.Some? then env.versionQuery.value else old(osVersion)
      ensures basicInformation == FromQuery(env.basicQuery)
      ensures var h := ProvisionHeap(windowsVersion, old(heapHandle), env.segmentHeap, env.classicHeap);
        && heapHandle == h.handle
        && heapCalls == old(heapCalls) + h.calls
        && var o := RequiredSteps(h.succeeded, env.queuedLockOk, env.refOk, env.baseOk);
           status == o.status && ran == old(ran) + [Runtime, Windows, System] + o.ran
    {
      applicationName := name;
      instanceHandle := imageBase;
      ran := ran + [Runtime];
      ran := ran + [Windows];
      InitializeWindowsInformation(env.versionQuery);
      ran := ran + [System];
      InitializeSystemInformation(env.basicQueryStatus, env.basicQuery);
      assert ran == old(ran) + [Runtime, Windows, System];
      status := RunRequiredInitializers(env);
    }

    /** PhInitializePhLib: run the initializers in order, stop with STATUS_UNSUCCESSFUL at the
        first required one that fails, and ignore the result of processor discovery. */
    method InitializePhLib(name: string, imageBase: nat, env: Environment) returns (status: NtStatus)
      requires QueryWellFormed(env.groupQuery)
      modifies this
      ensures applicationName == name && instanceHandle == imageBase
      ensures windowsVersion == ClassifyQuery(env.versionQuery).tag
      ensures windowsVersionName == ClassifyQuery(env.versionQuery).name
      ensures osVersion == if env.versionQuery.Some? then env.versionQuery.value else old(osVersion)
      ensures basicInformation == FromQuery(env.basicQuery)
      ensures var h := ProvisionHeap(windowsVersion, old(heapHandle), env.segmentHeap, env.classicHeap);
        && heapHandle == h.handle
        && heapCalls == old(heapCalls) + h.calls
        && var o := Boot(h.succeeded, env.queuedLockOk, env.refOk, env.baseOk);
           status == o.status && ran == old(ran) + o.ran
      ensures status == STATUS_SUCCESS ==>
        && HoldsTopology(DiscoverTopology(env.shared, basicInformation.numberOfProcessors,
                                          basicInformation.activeProcessorsAffinityMask, env.groupQuery))
        && ValidTopology()
        && queryBuffersFreed == old(queryBuffersFreed) + QueryBuffersFreed(env.shared, env.groupQuery)
        && (DiscoverTopology(env.shared, basicInformation.numberOfProcessors,
                             basicInformation.activeProcessorsAffinityMask, env.groupQuery).activeProcessorCount.None? ==>
              activeProcessorCount == old(activeProcessorCount))
      ensures status != STATUS_SUCCESS ==>
        && singleProcessorGroup == old(singleProcessorGroup)
        && numberOfProcessors == old(numberOfProcessors)
        && numberOfProcessorGroups == old(numberOfProcessorGroups)
        && activeProcessorCount == old(activeProcessorCount)
        && activeProcessorsAffinityMasks == old(activeProcessorsAffinityMasks)
        && queryBuffersFreed == old(queryBuffersFreed)
    {
      status := InitializeRequired(name, imageBase, env);
      if status != STATUS_SUCCESS {
        return;
      }
      ran := ran + [Processor];
      var _ := InitializeProcessorInformation(env.shared, env.groupQuery);
    }
  }
}
