/** A compensable unit enlisted in a transaction: which confirm and cancel calls to replay, for which xid, with which editor. */
module Participants {
  import opened Wrappers
  import opened TransactionStatuses
  import opened TransactionContexts
  import opened Compensable
  import opened Terminator

  /** The outcome of a `void` replay: Terminator's result is discarded, its exception propagates. */
  function Discard(r: Result<Arg, InvokeError>): Outcome<InvokeError> {
    match r
    case Success(_) => Pass
    case Failure(e) => Fail(e)
  }

  class Participant {
    /** Unset (null) until `SetXid` when built by the three-argument constructor. */
    var xid: Option<Xid>
    const confirmInvocationContext: InvocationContext
    const cancelInvocationContext: InvocationContext
    const transactionContextEditorClass: EditorClass

    /** The four-argument constructor: every field as given. */
    constructor WithXid(xid: Xid, confirmInvocationContext: InvocationContext, cancelInvocationContext: InvocationContext, transactionContextEditorClass: EditorClass)
      ensures this.xid == Some(xid)
      ensures this.confirmInvocationContext == confirmInvocationContext
      ensures this.cancelInvocationContext == cancelInvocationContext
      ensures this.transactionContextEditorClass == transactionContextEditorClass
    {
      this.xid := Some(xid);
      this.confirmInvocationContext := confirmInvocationContext;
      this.cancelInvocationContext := cancelInvocationContext;
      this.transactionContextEditorClass := transactionContextEditorClass;
    }

    /** The three-argument constructor: the xid stays unset. */
    constructor (confirmInvocationContext: InvocationContext, cancelInvocationContext: InvocationContext, transactionContextEditorClass: EditorClass)
      ensures xid == None
      ensures this.confirmInvocationContext == confirmInvocationContext
      ensures this.cancelInvocationContext == cancelInvocationContext
      ensures this.transactionContextEditorClass == transactionContextEditorClass
    {
      this.xid := None;
      this.confirmInvocationContext := confirmInvocationContext;
      this.cancelInvocationContext := cancelInvocationContext;
      this.transactionContextEditorClass := transactionContextEditorClass;
    }

    method SetXid(xid: Xid)
      modifies this
      ensures this.xid == Some(xid)
    {
      this.xid := Some(xid);
    }

    /** The context a replay injects: this participant's own xid and the code of the phase. */
    function ReplayContext(phase: TransactionStatus): TransactionContext
      reads this
    {
      TransactionContext(xid, phase.GetId())
    }

    /** The invocation replayed: the confirm one for commit, the cancel one for rollback. */
    function Target(confirm: bool): InvocationContext {
      if confirm then confirmInvocationContext else cancelInvocationContext
    }

    function Phase(confirm: bool): TransactionStatus {
      if confirm then CONFIRMING else CANCELLING
    }

    /** The reflective calls a replay makes: none for an empty method name, one otherwise. */
    function ReplayCalls(confirm: bool): (calls: seq<Invocation>)
      reads this
      ensures |calls| <= 1
      ensures |calls| == 1 <==> IsNotEmptyName(Target(confirm))
      ensures |calls| == 1 ==>
        (calls[0].context == TransactionContext(xid, Phase(confirm).GetId()) &&
         calls[0].editor == transactionContextEditorClass && calls[0].args == Target(confirm).args)
    {
      ReplayCallsOf(xid, Target(confirm), transactionContextEditorClass, Phase(confirm))
    }

    /** `commit`: replays the confirm call with a CONFIRMING context carrying this participant's xid and editor. */
    method Commit(registry: Registry) returns (r: Outcome<InvokeError>, ghost replay: Result<Arg, InvokeError>)
      modifies registry, confirmInvocationContext.args
      ensures Invoked(ReplayContext(CONFIRMING), confirmInvocationContext, transactionContextEditorClass, registry, replay) && r == Discard(replay)
      ensures r.Pass? ==> registry.log == old(registry.log) + ReplayCalls(true)
      ensures r.Fail? ==> ReplayCalls(true) != [] && old(registry.log) <= registry.log <= old(registry.log) + ReplayCalls(true)
    {
      var res := Invoke(ReplayContext(CONFIRMING), confirmInvocationContext, transactionContextEditorClass, registry);
      replay := res;
      r := Discard(res);
    }

    /** `rollback`: replays the cancel call with a CANCELLING context carrying this participant's xid and editor. */
    method Rollback(registry: Registry) returns (r: Outcome<InvokeError>, ghost replay: Result<Arg, InvokeError>)
      modifies registry, cancelInvocationContext.args
      ensures Invoked(ReplayContext(CANCELLING), cancelInvocationContext, transactionContextEditorClass, registry, replay) && r == Discard(replay)
      ensures r.Pass? ==> registry.log == old(registry.log) + ReplayCalls(false)
      ensures r.Fail? ==> ReplayCalls(false) != [] && old(registry.log) <= registry.log <= old(registry.log) + ReplayCalls(false)
    {
      var res := Invoke(ReplayContext(CANCELLING), cancelInvocationContext, transactionContextEditorClass, registry);
      replay := res;
      r := Discard(res);
    }
  }

  /** The calls replaying `target` in `phase` makes for a participant with this xid and editor. */
  function ReplayCallsOf(xid: Option<Xid>, target: InvocationContext, editor: EditorClass, phase: TransactionStatus): seq<Invocation> {
    if IsNotEmptyName(target) then [CallOf(TransactionContext(xid, phase.GetId()), target, editor)] else []
  }

  predicate IsNotEmptyName(inv: InvocationContext) {
    |inv.methodName| > 0
  }
}
