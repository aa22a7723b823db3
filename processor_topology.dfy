/** The processor topology of PhInitializeProcessorInformation: a fast single-group path keyed
    on the shared user data counters, and a general path over the processor-group relation
    whose per-group counts are summed in a 16-bit accumulator. This module holds the value the
    discovery computes; the method that writes it into the globals is PhLib's. */
module ProcessorTopology {
  import opened NtTypes

  /** MAXIMUM_PROC_PER_GROUP on a 64-bit build. */
  const MAXIMUM_PROC_PER_GROUP: nat := 64

  /** The two USER_SHARED_DATA counters that decide the fast path. */
  datatype SharedCounters = SharedCounters(activeGroupCount: UShort, activeProcessorCount: ULong)

  /** PROCESSOR_GROUP_INFO, less its reserved bytes. */
  datatype ProcessorGroupInfo =
    ProcessorGroupInfo(maximumProcessorCount: UChar, activeProcessorCount: UChar, activeProcessorMask: KAffinity)

  /** The group relation returned by the logical-processor query: the active group count and
      the buffer's array of group records. */
  datatype GroupRelation = GroupRelation(activeGroupCount: UShort, groupInfo: seq<ProcessorGroupInfo>)

  /** What the OS guarantees of a returned buffer: it holds a record for every active group. */
  predicate WellFormed(r: GroupRelation) {
    r.activeGroupCount <= |r.groupInfo|
  }

  predicate QueryWellFormed(q: Option<GroupRelation>) {
    q.Some? ==> WellFormed(q.value)
  }

  /** The records of the active groups. */
  function ActiveGroups(r: GroupRelation): seq<ProcessorGroupInfo>
    requires WellFormed(r)
  {
    r.groupInfo[..r.activeGroupCount]
  }

  /** The per-group processor counts, widened to USHORT. */
  function CountsOf(groups: seq<ProcessorGroupInfo>): seq<UShort> {
    seq(|groups|, i requires 0 <= i < |groups| => groups[i].activeProcessorCount as UShort)
  }

  /** The per-group affinity masks. */
  function MasksOf(groups: seq<ProcessorGroupInfo>): seq<KAffinity> {
    seq(|groups|, i requires 0 <= i < |groups| => groups[i].activeProcessorMask)
  }

  /** The mathematical sum of a sequence of counts. */
  function Sum(s: seq<int>): int {
    if s == [] then 0 else Sum(s[..|s| - 1]) + s[|s| - 1]
  }

  /** The USHORT accumulator after adding the first n group counts, left to right. */
  function Accumulated(groups: seq<ProcessorGroupInfo>, n: nat): UShort
    requires n <= |groups|
  {
    if n == 0 then 0 else ToUShort(Accumulated(groups, n - 1) + groups[n - 1].activeProcessorCount)
  }

  /** Wrapping at every step is the same as wrapping the total once. */
  lemma {:induction false} AccumulatedIsSumModulo(groups: seq<ProcessorGroupInfo>, n: nat)
    requires n <= |groups|
    ensures Accumulated(groups, n) == Sum(CountsOf(groups[..n])) % TWO_TO_THE_16
  {
    if n > 0 {
      AccumulatedIsSumModulo(groups, n - 1);
      var c := CountsOf(groups[..n]);
      assert c[..n - 1] == CountsOf(groups[..n - 1]);
      var s := Sum(c[..n - 1]);
      var x := groups[n - 1].activeProcessorCount;
      assert Sum(c) == s + x;
      ModuloOfSum(s, x);
    }
  }

  lemma ModuloOfSum(s: int, x: int)
    ensures (s % TWO_TO_THE_16 + x) % TWO_TO_THE_16 == (s + x) % TWO_TO_THE_16
  {
  }

  /** The loop of the general path that sums the active groups' processor counts into a USHORT
      (the index is a USHORT too, and never wraps since it stays below the group count). */
  method SumActiveProcessors(r: GroupRelation) returns (numberOfProcessors: UShort)
    requires WellFormed(r)
    ensures numberOfProcessors == Sum(CountsOf(ActiveGroups(r))) % TWO_TO_THE_16
  {
    var groups := ActiveGroups(r);
    numberOfProcessors := 0;
    var i: UShort := 0;
    while i < r.activeGroupCount
      invariant 0 <= i <= r.activeGroupCount
      invariant numberOfProcessors == Accumulated(groups, i)
    {
      numberOfProcessors := ToUShort(numberOfProcessors + r.groupInfo[i].activeProcessorCount);
      i := i + 1;
    }
    AccumulatedIsSumModulo(groups, |groups|);
    assert groups[..|groups|] == groups;
  }

  /** The fields of PH_SYSTEM_PROCESSOR_INFORMATION as a value. `activeProcessorCount` is None
      when the discovery does not write that field. */
  datatype Topology = Topology(
    singleProcessorGroup: bool,
    numberOfProcessors: UShort,
    numberOfProcessorGroups: UShort,
    activeProcessorCount: Option<seq<UShort>>,
    activeProcessorsAffinityMasks: seq<KAffinity>)

  /** The shared counters describe one group of at most MAXIMUM_PROC_PER_GROUP processors. */
  predicate FastPath(shared: SharedCounters) {
    shared.activeGroupCount == 1 && 0 < shared.activeProcessorCount <= MAXIMUM_PROC_PER_GROUP
  }

  /** The single-group shape, taken from the basic information. */
  function SingleGroup(basicProcessors: UShort, basicMask: KAffinity, counts: Option<seq<UShort>>): Topology {
    Topology(true, basicProcessors, 1, counts, [basicMask])
  }

  /** The group count and 16-bit processor sum the general path sees (0 and 0 when the query
      failed). */
  function QueriedGroupCount(q: Option<GroupRelation>): UShort {
    if q.Some? then q.value.activeGroupCount else 0
  }

  function QueriedProcessorSum(q: Option<GroupRelation>): UShort
    requires QueryWellFormed(q)
  {
    if q.Some? then ToUShort(Sum(CountsOf(ActiveGroups(q.value)))) else 0
  }

  /** The topology written by the discovery, from the shared counters, the basic information's
      processor count and affinity mask, and the group query's result (None: it failed). */
  function DiscoverTopology(shared: SharedCounters, basicProcessors: UShort, basicMask: KAffinity,
                            q: Option<GroupRelation>): Topology
    requires QueryWellFormed(q)
  {
    if FastPath(shared) then SingleGroup(basicProcessors, basicMask, None)
    else
      var g := QueriedGroupCount(q);
      var s := QueriedProcessorSum(q);
      var counts := if g > 1 then Some(CountsOf(ActiveGroups(q.value))) else None;
      if g > 1 && s != 0 then Topology(false, s, g, counts, MasksOf(ActiveGroups(q.value)))
      else SingleGroup(basicProcessors, basicMask, counts)
  }

  /** How many query buffers the discovery frees: one exactly when it issued the query and the
      query succeeded. */
  function QueryBuffersFreed(shared: SharedCounters, q: Option<GroupRelation>): nat {
    if !FastPath(shared) && q.Some? then 1 else 0
  }

  /** The invariant of every topology the discovery produces. */
  predicate Consistent(t: Topology) {
    && |t.activeProcessorsAffinityMasks| == t.numberOfProcessorGroups >= 1
    && (t.singleProcessorGroup <==> t.numberOfProcessorGroups == 1)
    && (!t.singleProcessorGroup ==>
          && t.activeProcessorCount.Some?
          && |t.activeProcessorCount.value| == t.numberOfProcessorGroups
          && t.numberOfProcessors == Sum(t.activeProcessorCount.value) % TWO_TO_THE_16 != 0)
  }

  lemma DiscoveryIsConsistent(shared: SharedCounters, basicProcessors: UShort, basicMask: KAffinity,
                              q: Option<GroupRelation>)
    requires QueryWellFormed(q)
    ensures Consistent(DiscoverTopology(shared, basicProcessors, basicMask, q))
  {
  }

  /** The fast path gives the same four fields (single group, processor count, group count,
      masks) as the general path's fallback, and exactly the fallback of a failed query. */
  lemma FastPathMatchesFallback(fast: SharedCounters, slow: SharedCounters, basicProcessors: UShort,
                                basicMask: KAffinity, q: Option<GroupRelation>)
    requires FastPath(fast) && !FastPath(slow)
    requires QueryWellFormed(q)
    requires DiscoverTopology(slow, basicProcessors, basicMask, q).singleProcessorGroup
    ensures var f := DiscoverTopology(fast, basicProcessors, basicMask, q);
      var g := DiscoverTopology(slow, basicProcessors, basicMask, q);
      && f.singleProcessorGroup == g.singleProcessorGroup
      && f.numberOfProcessors == g.numberOfProcessors
      && f.numberOfProcessorGroups == g.numberOfProcessorGroups
      && f.activeProcessorsAffinityMasks == g.activeProcessorsAffinityMasks
      && f == DiscoverTopology(slow, basicProcessors, basicMask, None)
  {
  }

  /** The general path: a multi-group result exactly when the query succeeded with more than one
      group and a nonzero 16-bit sum, and then the per-group arrays copy the query element-wise. */
  lemma GeneralPath(shared: SharedCounters, basicProcessors: UShort, basicMask: KAffinity, q: Option<GroupRelation>)
    requires !FastPath(shared)
    requires QueryWellFormed(q)
    ensures var t := DiscoverTopology(shared, basicProcessors, basicMask, q);
      !t.singleProcessorGroup <==> q.Some? && q.value.activeGroupCount > 1 && QueriedProcessorSum(q) != 0
    ensures var t := DiscoverTopology(shared, basicProcessors, basicMask, q);
      !t.singleProcessorGroup ==>
        var groups := ActiveGroups(q.value);
        && t.numberOfProcessorGroups == q.value.activeGroupCount
        && t.numberOfProcessors == Sum(CountsOf(groups)) % TWO_TO_THE_16
        && t.activeProcessorCount == Some(CountsOf(groups))
        && (forall i :: 0 <= i < |groups| ==>
              t.activeProcessorCount.value[i] == q.value.groupInfo[i].activeProcessorCount &&
              t.activeProcessorsAffinityMasks[i] == q.value.groupInfo[i].activeProcessorMask)
  {
  }

  /** The collapse: otherwise the single-group shape from the basic information; the per-group
      count array is written only for more than one group (and is then the copied counts, even
      when the sum is 0). */
  lemma CollapsedShape(shared: SharedCounters, basicProcessors: UShort, basicMask: KAffinity, q: Option<GroupRelation>)
    requires QueryWellFormed(q)
    requires FastPath(shared) || q.None? || q.value.activeGroupCount <= 1 || QueriedProcessorSum(q) == 0
    ensures var t := DiscoverTopology(shared, basicProcessors, basicMask, q);
      && t.singleProcessorGroup
      && t.numberOfProcessors == basicProcessors
      && t.numberOfProcessorGroups == 1
      && t.activeProcessorsAffinityMasks == [basicMask]
      && (t.activeProcessorCount.Some? <==> !FastPath(shared) && q.Some? && q.value.activeGroupCount > 1)
  {
  }

  /** The query buffer is freed once when the query succeeded, never otherwise. */
  lemma QueryBufferFreedOnce(shared: SharedCounters, q: Option<GroupRelation>)
    ensures QueryBuffersFreed(shared, q) <= 1
    ensures QueryBuffersFreed(shared, q) == 1 <==> !FastPath(shared) && q.Some?
  {
  }

  /** Three groups of 4, 8 and 2 processors. */
  lemma ThreeGroupExample(shared: SharedCounters, basicProcessors: UShort, basicMask: KAffinity)
    requires shared.activeGroupCount == 3
    ensures var q := Some(GroupRelation(3, [ProcessorGroupInfo(64, 4, 0xF), ProcessorGroupInfo(64, 8, 0xFF),
                                            ProcessorGroupInfo(64, 2, 0x3)]));
      DiscoverTopology(shared, basicProcessors, basicMask, q) == Topology(false, 14, 3, Some([4, 8, 2]), [0xF, 0xFF, 0x3])
  {
    var groups := [ProcessorGroupInfo(64, 4, 0xF), ProcessorGroupInfo(64, 8, 0xFF), ProcessorGroupInfo(64, 2, 0x3)];
    assert groups[..3] == groups;
    assert CountsOf(groups) == [4, 8, 2];
    assert [4, 8, 2][..2] == [4, 8] && [4, 8][..1] == [4] && [4][..0] == [];
    assert Sum([4, 8, 2]) == 14;
  }

  /** A failed query bypassing the fast path (group count 0) yields one group. */
  lemma FailedQueryExample(basicProcessors: UShort, basicMask: KAffinity)
    ensures DiscoverTopology(SharedCounters(0, 0), basicProcessors, basicMask, None) ==
      Topology(true, basicProcessors, 1, None, [basicMask])
  {
  }
}
