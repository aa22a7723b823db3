/** The sequencing of PhInitializePhLib: the steps run in a fixed order, and the first required
    initializer that fails ends the bootstrap with STATUS_UNSUCCESSFUL. */
module Bootstrap {
  import opened NtTypes

  /** The initializers PhInitializePhLib calls, named after the functions it calls. */
  datatype Initializer =
    | Runtime      // PhInitializeRuntimeInformation
    | Windows      // PhInitializeWindowsInformation
    | System       // PhInitializeSystemInformation
    | Heap         // PhHeapInitialization (required)
    | QueuedLock   // PhQueuedLockInitialization (required)
    | Ref          // PhRefInitialization (required)
    | Base         // PhBaseInitialization (required)
    | Processor    // PhInitializeProcessorInformation (result ignored)

  const CanonicalOrder: seq<Initializer> := [Runtime, Windows, System, Heap, QueuedLock, Ref, Base, Processor]

  /** The status returned and the initializers run, given what each required one returns. */
  datatype BootOutcome = BootOutcome(status: NtStatus, ran: seq<Initializer>)

  /** The required initializers alone, from the heap on: each runs only when every earlier one
      succeeded. */
  function RequiredSteps(heapOk: bool, queuedLockOk: bool, refOk: bool, baseOk: bool): BootOutcome {
    if !heapOk then BootOutcome(STATUS_UNSUCCESSFUL, [Heap])
    else if !queuedLockOk then BootOutcome(STATUS_UNSUCCESSFUL, [Heap, QueuedLock])
    else if !refOk then BootOutcome(STATUS_UNSUCCESSFUL, [Heap, QueuedLock, Ref])
    else if !baseOk then BootOutcome(STATUS_UNSUCCESSFUL, [Heap, QueuedLock, Ref, Base])
    else BootOutcome(STATUS_SUCCESS, [Heap, QueuedLock, Ref, Base])
  }

  /** The three unconditional steps, the required ones, then processor discovery on success. */
  function Boot(heapOk: bool, queuedLockOk: bool, refOk: bool, baseOk: bool): BootOutcome {
    var r := RequiredSteps(heapOk, queuedLockOk, refOk, baseOk);
    BootOutcome(r.status, [Runtime, Windows, System] + r.ran + (if r.status == STATUS_SUCCESS then [Processor] else []))
  }

  /** Success exactly when every required initializer succeeds; the only other status is
      STATUS_UNSUCCESSFUL. */
  lemma BootSucceedsExactly(heapOk: bool, queuedLockOk: bool, refOk: bool, baseOk: bool)
    ensures var o := Boot(heapOk, queuedLockOk, refOk, baseOk);
      (o.status == STATUS_SUCCESS <==> heapOk && queuedLockOk && refOk && baseOk) &&
      (o.status != STATUS_SUCCESS ==> o.status == STATUS_UNSUCCESSFUL)
  {
  }

  /** The initializers run in the canonical order, and stop right after the first failing
      required one: each required initializer runs exactly when every earlier one succeeded,
      and processor discovery runs exactly on success. */
  lemma {:induction false} BootIsFailFast(heapOk: bool, queuedLockOk: bool, refOk: bool, baseOk: bool)
    ensures var o := Boot(heapOk, queuedLockOk, refOk, baseOk);
      && 4 <= |o.ran| <= |CanonicalOrder|
      && o.ran == CanonicalOrder[..|o.ran|]
      && (QueuedLock in o.ran <==> heapOk)
      && (Ref in o.ran <==> heapOk && queuedLockOk)
      && (Base in o.ran <==> heapOk && queuedLockOk && refOk)
      && (Processor in o.ran <==> o.status == STATUS_SUCCESS)
  {
    var o := Boot(heapOk, queuedLockOk, refOk, baseOk);
    var n := |o.ran|;
    assert o.ran == CanonicalOrder[..n];
    InPrefix(QueuedLock, 4, n);
    InPrefix(Ref, 5, n);
    InPrefix(Base, 6, n);
    InPrefix(Processor, 7, n);
  }

  /** Helper: an initializer is in a prefix of the canonical order exactly when its position is. */
  lemma InPrefix(x: Initializer, k: nat, n: nat)
    requires k < |CanonicalOrder| && CanonicalOrder[k] == x && n <= |CanonicalOrder|
    ensures x in CanonicalOrder[..n] <==> k < n
  {
    if x in CanonicalOrder[..n] {
      var i :| 0 <= i < n && CanonicalOrder[..n][i] == x;
      assert CanonicalOrder[i] == x;
    }
  }
}
