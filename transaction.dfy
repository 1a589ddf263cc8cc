/** The transaction aggregate: identity, phase, type, retry counter, version, timestamps and the enlisted participants. */
module Transactions {
  import opened Wrappers
  import opened JavaTypes
  import opened TransactionStatuses
  import opened TransactionContexts
  import opened Terminator
  import opened Participants

  /** TransactionType.java is not part of this model: only the two kinds matter here, not their codes. */
  datatype TransactionType = ROOT | BRANCH

  /** Every field of a transaction at one moment. */
  datatype TransactionState = TransactionState(
    xid: Xid,
    status: TransactionStatus,
    transactionType: TransactionType,
    retriedCount: Int32,
    createTime: int,
    lastUpdateTime: int,
    version: Int64,
    participants: seq<Participant>)

  /** The participants' xids, in list order. */
  ghost function XidsOf(ps: seq<Participant>): (xids: seq<Option<Xid>>)
    reads set p | p in ps
    ensures |xids| == |ps| && forall j :: 0 <= j < |ps| ==> xids[j] == ps[j].xid
  {
    if |ps| == 0 then [] else XidsOf(ps[..|ps| - 1]) + [ps[|ps| - 1].xid]
  }

  /** The calls replaying the participants makes when they carry the given xids and every replay succeeds. */
  function PlanCalls(ps: seq<Participant>, xids: seq<Option<Xid>>, confirm: bool): seq<Invocation>
    requires |xids| == |ps|
  {
    if |ps| == 0 then []
    else
      var p := ps[|ps| - 1];
      PlanCalls(ps[..|ps| - 1], xids[..|ps| - 1], confirm)
        + ReplayCallsOf(xids[|ps| - 1], p.Target(confirm), p.transactionContextEditorClass, p.Phase(confirm))
  }

  /** The calls a commit (`confirm`) or a rollback makes when every replay succeeds: one per participant with a non-empty method name, in list order. */
  ghost function PhaseCalls(ps: seq<Participant>, confirm: bool): seq<Invocation>
    reads set p | p in ps
  {
    PlanCalls(ps, XidsOf(ps), confirm)
  }

  /** Each participant contributes its own replay and no other call. */
  lemma {:induction false} PlanCallsCount(ps: seq<Participant>, xids: seq<Option<Xid>>, confirm: bool)
    requires |xids| == |ps|
    ensures |PlanCalls(ps, xids, confirm)| <= |ps|
    ensures (forall i :: 0 <= i < |ps| ==> IsNotEmptyName(ps[i].Target(confirm))) ==> |PlanCalls(ps, xids, confirm)| == |ps|
  {
    if |ps| > 0 {
      var front := ps[..|ps| - 1];
      assert forall i :: 0 <= i < |front| ==> front[i] == ps[i];
      PlanCallsCount(front, xids[..|ps| - 1], confirm);
    }
  }

  /** Extending the prefix by one participant extends the calls by that participant's replay. */
  lemma PlanCallsSnoc(ps: seq<Participant>, xids: seq<Option<Xid>>, i: int, confirm: bool)
    requires |xids| == |ps| && 0 <= i < |ps|
    ensures PlanCalls(ps[..i + 1], xids[..i + 1], confirm)
         == PlanCalls(ps[..i], xids[..i], confirm)
            + ReplayCallsOf(xids[i], ps[i].Target(confirm), ps[i].transactionContextEditorClass, ps[i].Phase(confirm))
  {
    assert ps[..i + 1][..i] == ps[..i];
    assert xids[..i + 1][..i] == xids[..i];
  }

  /** While the participants carry the xids recorded, every prefix's calls are the plan for that prefix. */
  lemma PhaseCallsArePlan(ps: seq<Participant>, xids: seq<Option<Xid>>, k: int, confirm: bool)
    requires |xids| == |ps| && 0 <= k <= |ps|
    requires forall j :: 0 <= j < |ps| ==> ps[j].xid == xids[j]
    ensures PhaseCalls(ps[..k], confirm) == PlanCalls(ps[..k], xids[..k], confirm)
  {
    assert XidsOf(ps[..k]) == xids[..k];
  }

  /**
   * The `i`-th participant's step of a commit (`confirm`) or a rollback, seen only through the
   * calls it logs: before it, the log holds `base` and the calls of the participants ahead.
   */
  method Replay(ps: seq<Participant>, ghost xids: seq<Option<Xid>>, i: nat, confirm: bool, registry: Registry, ghost base: seq<Invocation>) returns (r: Outcome<InvokeError>)
    requires |xids| == |ps| && i < |ps| && ps[i].xid == xids[i]
    requires registry.log == base + PlanCalls(ps[..i], xids[..i], confirm)
    modifies registry, ps[i].Target(confirm).args
    ensures r.Pass? ==> registry.log == base + PlanCalls(ps[..i + 1], xids[..i + 1], confirm)
    ensures r.Fail? ==> base + PlanCalls(ps[..i], xids[..i], confirm) <= registry.log <= base + PlanCalls(ps[..i + 1], xids[..i + 1], confirm)
  {
    var participant := ps[i];
    ghost var done := PlanCalls(ps[..i], xids[..i], confirm);
    ghost var step := ReplayCallsOf(xids[i], participant.Target(confirm), participant.transactionContextEditorClass, participant.Phase(confirm));
    PlanCallsSnoc(ps, xids, i, confirm);
    ghost var replay;
    if confirm {
      r, replay := participant.Commit(registry);
    } else {
      r, replay := participant.Rollback(registry);
    }
    assert (base + done) + step == base + (done + step);
  }

  /**
   * The loop `commit` and `rollback` share: each participant's replay in list order, stopping at
   * the first that throws. `xids` records the participants' xids, which no replay alters.
   */
  method ReplayAll(ps: seq<Participant>, ghost xids: seq<Option<Xid>>, confirm: bool, registry: Registry) returns (r: Outcome<InvokeError>, ghost failed: nat)
    requires |xids| == |ps| && forall j :: 0 <= j < |ps| ==> ps[j].xid == xids[j]
    modifies registry, set p | p in ps :: p.Target(confirm).args
    ensures forall j :: 0 <= j < |ps| ==> ps[j].xid == xids[j]
    ensures r.Pass? ==> registry.log == old(registry.log) + PlanCalls(ps, xids, confirm)
    ensures r.Fail? ==> && failed < |ps|
                        && old(registry.log) + PlanCalls(ps[..failed], xids[..failed], confirm) <= registry.log
                        && registry.log <= old(registry.log) + PlanCalls(ps[..failed + 1], xids[..failed + 1], confirm)
  {
    failed := 0;
    var i := 0;
    while i < |ps|
      invariant 0 <= i <= |ps|
      invariant registry.log == old(registry.log) + PlanCalls(ps[..i], xids[..i], confirm)
    {
      assert ps[i] in ps;
      r := Replay(ps, xids, i, confirm, registry, old(registry.log));
      if r.Fail? {
        failed := i;
        return;
      }
      i := i + 1;
    }
    assert ps[..i] == ps && xids[..i] == xids;
    r := Pass;
  }

  class Transaction {
    /** The identifier; never reassigned (`getXid` hands out a copy, and a value cannot be altered through its copy). */
    const xid: Xid
    const transactionType: TransactionType
    const createTime: int
    var status: TransactionStatus
    var retriedCount: Int32
    var lastUpdateTime: int
    var version: Int64
    var participants: seq<Participant>

    function State(): TransactionState
      reads this
    {
      TransactionState(xid, status, transactionType, retriedCount, createTime, lastUpdateTime, version, participants)
    }

    /**
     * The branch constructor: TRYING, BRANCH, the context's xid. `created` and `updated` are the
     * two clock readings the field initialisers of createTime and lastUpdateTime take.
     */
    constructor FromContext(transactionContext: TransactionContext, created: int, updated: int)
      requires transactionContext.xid.Some?
      ensures State() == TransactionState(transactionContext.xid.value, TRYING, BRANCH, 0, created, updated, 1, [])
    {
      xid := transactionContext.xid.value;
      status := TRYING;
      transactionType := BRANCH;
      retriedCount := 0;
      createTime := created;
      lastUpdateTime := updated;
      version := 1;
      participants := [];
    }

    /**
     * The typed constructors: TRYING, the given type, and an xid freshly made by TransactionXid
     * (random, or derived from a unique identity), which is passed in, as are the two clock
     * readings of the field initialisers.
     */
    constructor (transactionType: TransactionType, freshXid: Xid, created: int, updated: int)
      ensures State() == TransactionState(freshXid, TRYING, transactionType, 0, created, updated, 1, [])
    {
      xid := freshXid;
      status := TRYING;
      this.transactionType := transactionType;
      retriedCount := 0;
      createTime := created;
      lastUpdateTime := updated;
      version := 1;
      participants := [];
    }

    /**
     * The no-argument constructor the serializer instantiates, followed by the serializer's
     * restoring of every field from the stored bytes; `state` is what those bytes decode to.
     */
    constructor Deserialized(state: TransactionState)
      ensures State() == state
    {
      xid := state.xid;
      status := state.status;
      transactionType := state.transactionType;
      retriedCount := state.retriedCount;
      createTime := state.createTime;
      lastUpdateTime := state.lastUpdateTime;
      version := state.version;
      participants := state.participants;
    }

    function GetXid(): (x: Xid)
      ensures x == xid
    {
      xid
    }

    /** `enlistParticipant`: appends whatever the status, keeping the earlier entries. */
    method EnlistParticipant(participant: Participant)
      modifies this
      ensures State() == old(State()).(participants := old(participants) + [participant])
      ensures |participants| == |old(participants)| + 1 && participants[..|old(participants)|] == old(participants)
    {
      participants := participants + [participant];
    }

    /** `changeStatus`: any status, from any status. */
    method ChangeStatus(status: TransactionStatus)
      modifies this
      ensures State() == old(State()).(status := status)
    {
      this.status := status;
    }

    method AddRetriedCount()
      modifies this
      ensures State() == old(State()).(retriedCount := Inc32(old(retriedCount)))
    {
      retriedCount := Inc32(retriedCount);
    }

    method ResetRetriedCount(retriedCount: Int32)
      modifies this
      ensures State() == old(State()).(retriedCount := retriedCount)
    {
      this.retriedCount := retriedCount;
    }

    method UpdateVersion()
      modifies this
      ensures State() == old(State()).(version := Inc64(old(version)))
    {
      version := Inc64(version);
    }

    method SetVersion(version: Int64)
      modifies this
      ensures State() == old(State()).(version := version)
    {
      this.version := version;
    }

    method SetLastUpdateTime(date: int)
      modifies this
      ensures State() == old(State()).(lastUpdateTime := date)
    {
      lastUpdateTime := date;
    }

    /** `updateTime`: the clock reading `now` becomes the last update time. */
    method UpdateTime(now: int)
      modifies this
      ensures State() == old(State()).(lastUpdateTime := now)
    {
      lastUpdateTime := now;
    }

    /**
     * `commit`: each participant's confirm replay in list order. A replay that throws stops the
     * loop, so the calls made are those of a prefix of the list, possibly with the failing one.
     * The transaction's own fields are untouched.
     */
    method Commit(registry: Registry) returns (r: Outcome<InvokeError>, ghost failed: nat)
      modifies registry, set p | p in participants :: p.confirmInvocationContext.args
      ensures unchanged(this)
      ensures r.Pass? ==> registry.log == old(registry.log) + PhaseCalls(participants, true)
      ensures r.Fail? ==> && failed < |participants|
                          && old(registry.log) + PhaseCalls(participants[..failed], true) <= registry.log
                          && registry.log <= old(registry.log) + PhaseCalls(participants[..failed + 1], true)
    {
      ghost var xids := XidsOf(participants);
      assert (set p | p in participants :: p.Target(true).args) == (set p | p in participants :: p.confirmInvocationContext.args);
      r, failed := ReplayAll(participants, xids, true, registry);
      if r.Fail? {
        PhaseCallsArePlan(participants, xids, failed, true);
        PhaseCallsArePlan(participants, xids, failed + 1, true);
      } else {
        PhaseCallsArePlan(participants, xids, |participants|, true);
        assert participants[..|participants|] == participants;
      }
    }

    /** `rollback`: the same walk over the participants, replaying each cancel call. */
    method Rollback(registry: Registry) returns (r: Outcome<InvokeError>, ghost failed: nat)
      modifies registry, set p | p in participants :: p.cancelInvocationContext.args
      ensures unchanged(this)
      ensures r.Pass? ==> registry.log == old(registry.log) + PhaseCalls(participants, false)
      ensures r.Fail? ==> && failed < |participants|
                          && old(registry.log) + PhaseCalls(participants[..failed], false) <= registry.log
                          && registry.log <= old(registry.log) + PhaseCalls(participants[..failed + 1], false)
    {
      ghost var xids := XidsOf(participants);
      assert (set p | p in participants :: p.Target(false).args) == (set p | p in participants :: p.cancelInvocationContext.args);
      r, failed := ReplayAll(participants, xids, false, registry);
      if r.Fail? {
        PhaseCallsArePlan(participants, xids, failed, false);
        PhaseCallsArePlan(participants, xids, failed + 1, false);
      } else {
        PhaseCallsArePlan(participants, xids, |participants|, false);
        assert participants[..|participants|] == participants;
      }
    }
  }
}
