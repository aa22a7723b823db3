/** The heap fallback chain of PhHeapHandle initialisation: a segment heap on Windows 8 and
    later, otherwise (or when that creation returns NULL) a classic growable heap with a 2 MB
    reserve and a 1 MB commit, switched to the low-fragmentation front end. */
module HeapProvisioning {
  import opened NtTypes
  import opened WindowsVersion

  /** A PVOID heap handle; 0 is NULL. */
  type Handle = nat
  const NULL: Handle := 0

  /** The RtlCreateHeap flags the source passes. */
  datatype HeapFlag = Growable | CreateSegmentHeap | Class1

  const CLASSIC_RESERVE_SIZE: nat := 2 * 1024 * 1024
  const CLASSIC_COMMIT_SIZE: nat := 1024 * 1024

  /** The calls the chain makes into the heap primitives, in order. */
  datatype HeapCall =
    | CreateHeap(flags: set<HeapFlag>, reserveSize: nat, commitSize: nat)
    | SetCompatibilityLfh(heap: Handle)

  const SegmentHeapCreation := CreateHeap({Growable, CreateSegmentHeap, Class1}, 0, 0)
  const ClassicHeapCreation := CreateHeap({Growable, Class1}, CLASSIC_RESERVE_SIZE, CLASSIC_COMMIT_SIZE)

  /** The new value of PhHeapHandle, the function's BOOLEAN result, and the calls made. */
  datatype HeapOutcome = HeapOutcome(handle: Handle, succeeded: bool, calls: seq<HeapCall>)

  predicate SegmentHeapSupported(tag: VersionTag) {
    Rank(tag) >= Rank(Win8)
  }

  /** The chain, given the WindowsVersion tag, the handle on entry, and what each RtlCreateHeap
      call would return (the result of the LFH call is not an input: nothing reads it). */
  function ProvisionHeap(tag: VersionTag, prior: Handle, segment: Handle, classic: Handle): HeapOutcome {
    var afterSegment := if SegmentHeapSupported(tag) then segment else prior;
    var segmentCalls := if SegmentHeapSupported(tag) then [SegmentHeapCreation] else [];
    if afterSegment != NULL then HeapOutcome(afterSegment, true, segmentCalls)
    else if classic == NULL then HeapOutcome(NULL, false, segmentCalls + [ClassicHeapCreation])
    else HeapOutcome(classic, true, segmentCalls + [ClassicHeapCreation, SetCompatibilityLfh(classic)])
  }

  /** The segment heap is attempted exactly when the tag is at least WINDOWS_8, and then first. */
  lemma SegmentAttemptedExactly(tag: VersionTag, prior: Handle, segment: Handle, classic: Handle)
    ensures var o := ProvisionHeap(tag, prior, segment, classic);
      (SegmentHeapCreation in o.calls <==> SegmentHeapSupported(tag)) &&
      (SegmentHeapSupported(tag) ==> o.calls[0] == SegmentHeapCreation)
  {
  }

  /** The classic heap is attempted exactly when no handle exists after the segment step. */
  lemma ClassicAttemptedExactly(tag: VersionTag, prior: Handle, segment: Handle, classic: Handle)
    ensures var o := ProvisionHeap(tag, prior, segment, classic);
      ClassicHeapCreation in o.calls <==> (if SegmentHeapSupported(tag) then segment else prior) == NULL
  {
  }

  /** Success exactly when a handle is held; from a NULL handle (the state at bootstrap), failure
      exactly when every attempted creation returned NULL. */
  lemma FailsExactlyWhenAllCreationsFail(tag: VersionTag, prior: Handle, segment: Handle, classic: Handle)
    ensures var o := ProvisionHeap(tag, prior, segment, classic);
      o.succeeded <==> o.handle != NULL
    ensures prior == NULL ==>
      (!ProvisionHeap(tag, prior, segment, classic).succeeded <==>
        (SegmentHeapSupported(tag) ==> segment == NULL) && classic == NULL)
  {
  }

  /** The low-fragmentation front end is requested once, only for a classic heap that was
      created, right after its creation; a segment heap never gets it. */
  lemma LfhOnlyOnClassicHeap(tag: VersionTag, prior: Handle, segment: Handle, classic: Handle, h: Handle)
    ensures var o := ProvisionHeap(tag, prior, segment, classic);
      SetCompatibilityLfh(h) in o.calls <==>
        h == classic != NULL && ClassicHeapCreation in o.calls
    ensures var o := ProvisionHeap(tag, prior, segment, classic);
      forall i :: 0 <= i < |o.calls| && o.calls[i].SetCompatibilityLfh? ==>
        i == |o.calls| - 1 && i > 0 && o.calls[i - 1] == ClassicHeapCreation && o.handle == o.calls[i].heap
  {
  }

  /** A created segment heap is kept: nothing else is created and it becomes the handle. */
  lemma SegmentHeapIsKept(tag: VersionTag, prior: Handle, segment: Handle, classic: Handle)
    requires SegmentHeapSupported(tag) && segment != NULL
    ensures ProvisionHeap(tag, prior, segment, classic) == HeapOutcome(segment, true, [SegmentHeapCreation])
  {
  }
}
