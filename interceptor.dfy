/**
 * The @Compensable interceptor: decides the role of an intercepted call and drives the
 * transaction manager around the business method, with Java's try/catch/finally order.
 * The transaction manager and the join point are abstract: every call they receive is logged in
 * an `Environment`, which answers `isTransactionActive` and decides, by the position of a call
 * in the log, whether that call throws.
 */
module Interceptor {
  import opened Wrappers
  import opened JavaTypes
  import opened TransactionStatuses
  import opened TransactionContexts
  import opened Compensable
  import opened MethodContext

  /** One call made by the interceptor: the transaction manager's methods, and `proceed` on the join point. */
  datatype Event =
    | IsActiveCall
    | BeginCall(uniqueIdentity: Arg)
    | NewBeginCall(newContext: TransactionContext)
    | ExistBeginCall(existContext: TransactionContext)
    | CommitCall(asyncCommit: bool)
    | RollbackCall(asyncRollback: bool)
    | CleanCall(withTransaction: bool)
    | ProceedCall

  /** The transaction manager and the join point, seen only through the calls they receive. */
  class Environment {
    var trace: seq<Event>
    /** The answer of `isTransactionActive` when asked at a given position of the trace. */
    const active: nat -> bool
    /** Whether the manager call made at a given position of the trace throws, and what. */
    const raises: (nat, Event) -> Option<Throwable>

    constructor (active: nat -> bool, raises: (nat, Event) -> Option<Throwable>)
      ensures trace == [] && this.active == active && this.raises == raises
    {
      trace := [];
      this.active := active;
      this.raises := raises;
    }

    /** `transactionManager.isTransactionActive()`. */
    method IsTransactionActive() returns (b: bool)
      modifies this
      ensures trace == old(trace) + [IsActiveCall]
      ensures b == active(|old(trace)|)
    {
      b := active(|trace|);
      trace := trace + [IsActiveCall];
    }

    /** A manager call that returns nothing the interceptor keeps: Some(t) when it throws t. */
    method Call(e: Event) returns (thrown: Option<Throwable>)
      modifies this
      ensures trace == old(trace) + [e]
      ensures thrown == raises(|old(trace)|, e)
    {
      thrown := raises(|trace|, e);
      trace := trace + [e];
    }

    /** `pjp.proceed()`: runs the business method, which ends as the join point says. */
    method Proceed(pjp: JoinPoint) returns (c: Completion)
      modifies this
      ensures trace == old(trace) + [ProceedCall]
      ensures c == pjp.body
    {
      c := pjp.body;
      trace := trace + [ProceedCall];
    }
  }

  /** The calls made by a run of the interceptor, in order, and how the run ends. */
  datatype Run = Run(events: seq<Event>, result: Completion)

  const SYSTEM_EXCEPTION_CLASS: ClassName := "org.mengyun.tcctransaction.SystemException"
  const NO_EXISTED_CLASS: ClassName := "org.mengyun.tcctransaction.NoExistedTransactionException"

  /** The SystemException thrown when the legality check fails. */
  const ILLEGAL_CONTEXT: Throwable := Throwable(SYSTEM_EXCEPTION_CLASS, None)

  /** What a failing editor throws out of the CompensableMethodContext constructor. */
  function EditorException(e: EditorError): (t: Throwable)
    ensures t.rootCause.None?
  {
    match e
    case ArrayIndexOutOfBounds => Throwable("java.lang.ArrayIndexOutOfBoundsException", None)
    case ClassCast => Throwable("java.lang.ClassCastException", None)
  }

  /** The context object the constructor builds around a join point and the context found in its arguments. */
  function ContextOf(pjp: JoinPoint, context: Option<TransactionContext>): CompensableMethodContext {
    CompensableMethodContext(pjp, pjp.signature, pjp.signature.compensable, pjp.signature.compensable.propagation, context)
  }

  function SetOf(s: seq<ClassName>): (r: set<ClassName>)
    ensures forall c :: c in r <==> c in s
  {
    set c | c in s
  }

  /** A delay-cancel class matches when it is a supertype of the throwable's class or of its root cause's class. */
  predicate DelayCancelMatch(c: ClassName, t: Throwable, isAssignableFrom: Hierarchy) {
    isAssignableFrom(c, t.cls) || (t.rootCause.Some? && isAssignableFrom(c, t.rootCause.value))
  }

  predicate IsDelayCancel(t: Throwable, delayCancelExceptions: set<ClassName>, isAssignableFrom: Hierarchy) {
    exists c :: c in delayCancelExceptions && DelayCancelMatch(c, t, isAssignableFrom)
  }

  /** `catch (NoExistedTransactionException e)`: the throwable is an instance of that class. */
  predicate IsNoExisted(t: Throwable, isAssignableFrom: Hierarchy) {
    isAssignableFrom(NO_EXISTED_CLASS, t.cls)
  }

  /** The run's outcome so far after a manager call at position `at`: its exception if it throws, `otherwise` if not. */
  function After(env: Environment, at: nat, e: Event, otherwise: Completion): (c: Completion)
    ensures env.raises(at, e).None? ==> c == otherwise
    ensures env.raises(at, e).Some? ==> c == Threw(env.raises(at, e).value)
  {
    match env.raises(at, e)
    case Some(t) => Threw(t)
    case None => otherwise
  }

  /**
   * The finally block: `cleanAfterCompletion` is called after whatever ran before it, with the
   * transaction when one was begun and null otherwise; an exception it throws replaces the
   * pending outcome, as an exception thrown from a finally block does in Java.
   */
  function Finally(env: Environment, start: nat, run: Run, withTransaction: bool): (r: Run)
    ensures r.events == run.events + [CleanCall(withTransaction)]
    ensures env.raises(start + |run.events|, CleanCall(withTransaction)).None? ==> r.result == run.result
  {
    Run(run.events + [CleanCall(withTransaction)], After(env, start + |run.events|, CleanCall(withTransaction), run.result))
  }

  lemma AppendAssociative(a: seq<Event>, b: seq<Event>, c: seq<Event>)
    ensures (a + b) + c == a + (b + c)
  {
  }

  /** A run whose first call is `e`. */
  function Prefixed(e: Event, run: Run): Run {
    Run([e] + run.events, run.result)
  }

  /**
   * `rootMethodProceed` from trace position `start`: begin; proceed; commit on success, or on an
   * exception roll back unless it is delay-cancel and rethrow it; clean up in every case.
   */
  function RootRun(env: Environment, start: nat, uniqueIdentity: Arg, body: Completion, asyncConfirm: bool, asyncCancel: bool,
                   delayCancelExceptions: set<ClassName>, isAssignableFrom: Hierarchy): Run
  {
    var begin := BeginCall(uniqueIdentity);
    match env.raises(start, begin)
    case Some(t) => Finally(env, start, Run([begin], Threw(t)), false)
    case None => Finally(env, start, Prefixed(begin, TryRun(env, start + 1, body, asyncConfirm, asyncCancel, delayCancelExceptions, isAssignableFrom)), true)
  }

  /**
   * The try block of `rootMethodProceed` once `begin` returned, from the position `at` of
   * `proceed`: commit on success; on an exception, roll back unless it is delay-cancel, and
   * rethrow it unless rollback throws.
   */
  function TryRun(env: Environment, at: nat, body: Completion, asyncConfirm: bool, asyncCancel: bool,
                  delayCancelExceptions: set<ClassName>, isAssignableFrom: Hierarchy): Run
  {
    match body
    case Returned(_) => Run([ProceedCall, CommitCall(asyncConfirm)], After(env, at + 1, CommitCall(asyncConfirm), body))
    case Threw(t) =>
      if IsDelayCancel(t, delayCancelExceptions, isAssignableFrom) then Run([ProceedCall], body)
      else Run([ProceedCall, RollbackCall(asyncCancel)], After(env, at + 1, RollbackCall(asyncCancel), body))
  }

  /** An exception caught by `catch (NoExistedTransactionException e)` turns into the method's null value. */
  function Swallow(t: Throwable, isAssignableFrom: Hierarchy, nullValue: Arg): Completion {
    if IsNoExisted(t, isAssignableFrom) then Returned(nullValue) else Threw(t)
  }

  /**
   * The CONFIRMING and CANCELLING branches: look the branch transaction up, then commit or roll it
   * back (`phase`); a NoExistedTransactionException from either call means the phase already
   * happened and is ignored; clean up; answer the null value of the return type.
   */
  function SettleRun(env: Environment, start: nat, context: TransactionContext, phase: Event, isAssignableFrom: Hierarchy, nullValue: Arg): Run {
    Finally(env, start, SettleTry(env, start, context, phase, isAssignableFrom, nullValue), env.raises(start, ExistBeginCall(context)).None?)
  }

  /** The try block of a settling run: the lookup, then the phase call when the lookup returned. */
  function SettleTry(env: Environment, start: nat, context: TransactionContext, phase: Event, isAssignableFrom: Hierarchy, nullValue: Arg): Run {
    var begin := ExistBeginCall(context);
    match env.raises(start, begin)
    case Some(t) => Run([begin], Swallow(t, isAssignableFrom, nullValue))
    case None =>
      Run([begin, phase], match env.raises(start + 1, phase)
                          case Some(t) => Swallow(t, isAssignableFrom, nullValue)
                          case None => Returned(nullValue))
  }

  /** `providerMethodProceed` from trace position `start`, by the status the propagated context carries. */
  function ProviderRun(env: Environment, start: nat, context: TransactionContext, body: Completion, asyncConfirm: bool, asyncCancel: bool,
                       isAssignableFrom: Hierarchy, nullValue: Arg): Run
  {
    match ValueOf(context.status)
    case TRYING =>
      var begin := NewBeginCall(context);
      (match env.raises(start, begin)
       case Some(t) => Finally(env, start, Run([begin], Threw(t)), false)
       case None => Finally(env, start, Run([begin, ProceedCall], body), true))
    case CONFIRMING => SettleRun(env, start, context, CommitCall(asyncConfirm), isAssignableFrom, nullValue)
    case CANCELLING => SettleRun(env, start, context, RollbackCall(asyncCancel), isAssignableFrom, nullValue)
  }

  /** No manager call from trace position `from` on throws. */
  ghost predicate Quiet(env: Environment, from: nat) {
    forall n: nat, e: Event :: from <= n ==> env.raises(n, e).None?
  }

  /** `cleanAfterCompletion` ends every ROOT run, is called once, and gets the transaction exactly when `begin` returned. */
  lemma RootCleansUpOnceAndLast(env: Environment, start: nat, uniqueIdentity: Arg, body: Completion, asyncConfirm: bool, asyncCancel: bool,
                                delayCancelExceptions: set<ClassName>, isAssignableFrom: Hierarchy)
    ensures var events := RootRun(env, start, uniqueIdentity, body, asyncConfirm, asyncCancel, delayCancelExceptions, isAssignableFrom).events;
      && |events| >= 2
      && events[|events| - 1] == CleanCall(env.raises(start, BeginCall(uniqueIdentity)).None?)
      && forall i :: 0 <= i < |events| - 1 ==> !events[i].CleanCall?
  {
  }

  /** A ROOT run commits, once and right after `proceed`, exactly when `begin` returned and the business method returned; it then never rolls back. */
  lemma RootCommitsOnlyOnSuccess(env: Environment, start: nat, uniqueIdentity: Arg, body: Completion, asyncConfirm: bool, asyncCancel: bool,
                                 delayCancelExceptions: set<ClassName>, isAssignableFrom: Hierarchy)
    ensures var events := RootRun(env, start, uniqueIdentity, body, asyncConfirm, asyncCancel, delayCancelExceptions, isAssignableFrom).events;
      && ((exists i :: 0 <= i < |events| && events[i].CommitCall?) <==> env.raises(start, BeginCall(uniqueIdentity)).None? && body.Returned?)
      && (forall i :: 0 <= i < |events| && events[i].CommitCall? ==> i == 2 && events[i] == CommitCall(asyncConfirm) && events[1] == ProceedCall)
      && (body.Returned? ==> forall i :: 0 <= i < |events| ==> !events[i].RollbackCall?)
  {
    var events := RootRun(env, start, uniqueIdentity, body, asyncConfirm, asyncCancel, delayCancelExceptions, isAssignableFrom).events;
    if env.raises(start, BeginCall(uniqueIdentity)).None? && body.Returned? {
      assert events[2].CommitCall?;
    }
  }

  /** A successful ROOT run: begin, proceed, commit, clean up, and the business method's own value. */
  lemma RootSuccess(env: Environment, start: nat, uniqueIdentity: Arg, v: Arg, asyncConfirm: bool, asyncCancel: bool,
                    delayCancelExceptions: set<ClassName>, isAssignableFrom: Hierarchy)
    requires Quiet(env, start)
    ensures RootRun(env, start, uniqueIdentity, Returned(v), asyncConfirm, asyncCancel, delayCancelExceptions, isAssignableFrom)
         == Run([BeginCall(uniqueIdentity), ProceedCall, CommitCall(asyncConfirm), CleanCall(true)], Returned(v))
  {
    assert env.raises(start, BeginCall(uniqueIdentity)).None?;
    assert env.raises(start + 2, CommitCall(asyncConfirm)).None?;
    assert env.raises(start + 3, CleanCall(true)).None?;
  }

  /**
   * When the business method of a ROOT run throws t: rollback is called exactly when t is not
   * delay-cancel, commit never; and unless rollback or cleanup throws, t itself is rethrown.
   */
  lemma RootFailure(env: Environment, start: nat, uniqueIdentity: Arg, t: Throwable, asyncConfirm: bool, asyncCancel: bool,
                    delayCancelExceptions: set<ClassName>, isAssignableFrom: Hierarchy)
    requires env.raises(start, BeginCall(uniqueIdentity)).None?
    ensures var run := RootRun(env, start, uniqueIdentity, Threw(t), asyncConfirm, asyncCancel, delayCancelExceptions, isAssignableFrom);
      && ((exists i :: 0 <= i < |run.events| && run.events[i].RollbackCall?) <==> !IsDelayCancel(t, delayCancelExceptions, isAssignableFrom))
      && (forall i :: 0 <= i < |run.events| ==> !run.events[i].CommitCall?)
      && (Quiet(env, start + 1) ==> run.result == Threw(t))
  {
    var run := RootRun(env, start, uniqueIdentity, Threw(t), asyncConfirm, asyncCancel, delayCancelExceptions, isAssignableFrom);
    if !IsDelayCancel(t, delayCancelExceptions, isAssignableFrom) {
      assert run.events[2].RollbackCall?;
    }
    if Quiet(env, start + 1) {
      assert env.raises(start + 2, RollbackCall(asyncCancel)).None?;
      assert env.raises(start + 2, CleanCall(true)).None?;
      assert env.raises(start + 3, CleanCall(true)).None?;
    }
  }

  /** `cleanAfterCompletion` ends every PROVIDER run, is called once, and gets the transaction exactly when the branch lookup or begin returned. */
  lemma ProviderCleansUpOnceAndLast(env: Environment, start: nat, context: TransactionContext, body: Completion, asyncConfirm: bool, asyncCancel: bool,
                                    isAssignableFrom: Hierarchy, nullValue: Arg)
    ensures var events := ProviderRun(env, start, context, body, asyncConfirm, asyncCancel, isAssignableFrom, nullValue).events;
      && |events| >= 2
      && events[|events| - 1] == CleanCall(env.raises(start, events[0]).None?)
      && forall i :: 0 <= i < |events| - 1 ==> !events[i].CleanCall?
  {
  }

  /** A PROVIDER call in the TRYING phase begins a branch transaction, then proceeds, and answers what the business method does. */
  lemma ProviderTrying(env: Environment, start: nat, context: TransactionContext, body: Completion, asyncConfirm: bool, asyncCancel: bool,
                       isAssignableFrom: Hierarchy, nullValue: Arg)
    requires ValueOf(context.status) == TRYING
    requires env.raises(start, NewBeginCall(context)).None?
    ensures var run := ProviderRun(env, start, context, body, asyncConfirm, asyncCancel, isAssignableFrom, nullValue);
      && run.events == [NewBeginCall(context), ProceedCall, CleanCall(true)]
      && (env.raises(start + 2, CleanCall(true)).None? ==> run.result == body)
  {
  }

  /**
   * A PROVIDER call in the CONFIRMING or CANCELLING phase never runs the business method; once the
   * branch is found it commits with asyncConfirm or rolls back with asyncCancel according to the
   * phase, and it never makes the other phase call; answers the null value of its return type when it
   * returns, and never lets a NoExistedTransactionException of the manager escape, so replaying a
   * phase that already completed is harmless.
   */
  lemma ProviderSettles(env: Environment, start: nat, context: TransactionContext, body: Completion, asyncConfirm: bool, asyncCancel: bool,
                        isAssignableFrom: Hierarchy, nullValue: Arg)
    requires ValueOf(context.status) != TRYING
    ensures var run := ProviderRun(env, start, context, body, asyncConfirm, asyncCancel, isAssignableFrom, nullValue);
      && run.events[0] == ExistBeginCall(context)
      && (forall i :: 0 <= i < |run.events| ==> run.events[i] != ProceedCall)
      && (ValueOf(context.status) == CONFIRMING ==> forall i :: 0 <= i < |run.events| ==> !run.events[i].RollbackCall?)
      && (ValueOf(context.status) == CANCELLING ==> forall i :: 0 <= i < |run.events| ==> !run.events[i].CommitCall?)
      && (env.raises(start, ExistBeginCall(context)).None? ==>
            run.events == [ExistBeginCall(context), if ValueOf(context.status) == CONFIRMING then CommitCall(asyncConfirm) else RollbackCall(asyncCancel), CleanCall(true)])
      && (run.result.Returned? ==> run.result.value == nullValue)
      && (run.result.Threw? && env.raises(start + |run.events| - 1, run.events[|run.events| - 1]).None? ==>
            !IsNoExisted(run.result.exception, isAssignableFrom))
  {
    if ValueOf(context.status) == CONFIRMING {
      SettleCalls(env, start, context, CommitCall(asyncConfirm), isAssignableFrom, nullValue);
    } else {
      SettleCalls(env, start, context, RollbackCall(asyncCancel), isAssignableFrom, nullValue);
    }
  }

  /** A settling run makes only the lookup, the phase call and the cleanup, makes the phase call once the branch is found, and ends with the null value or an exception that is not NoExisted unless cleanup threw it. */
  lemma SettleCalls(env: Environment, start: nat, context: TransactionContext, phase: Event, isAssignableFrom: Hierarchy, nullValue: Arg)
    ensures var run := SettleRun(env, start, context, phase, isAssignableFrom, nullValue);
      && run.events[0] == ExistBeginCall(context)
      && (forall i :: 0 <= i < |run.events| ==> run.events[i] in {ExistBeginCall(context), phase, CleanCall(true), CleanCall(false)})
      && (env.raises(start, ExistBeginCall(context)).None? ==> run.events == [ExistBeginCall(context), phase, CleanCall(true)])
      && (run.result.Returned? ==> run.result.value == nullValue)
      && (run.result.Threw? && env.raises(start + |run.events| - 1, run.events[|run.events| - 1]).None? ==>
            !IsNoExisted(run.result.exception, isAssignableFrom))
  {
  }

  /** The lookup of a completed branch throws NoExistedTransactionException: nothing is committed or rolled back, and the call answers the null value. */
  lemma ProviderAlreadySettled(env: Environment, start: nat, context: TransactionContext, body: Completion, asyncConfirm: bool, asyncCancel: bool,
                               isAssignableFrom: Hierarchy, nullValue: Arg)
    requires ValueOf(context.status) != TRYING
    requires env.raises(start, ExistBeginCall(context)).Some? && IsNoExisted(env.raises(start, ExistBeginCall(context)).value, isAssignableFrom)
    requires env.raises(start + 1, CleanCall(false)).None?
    ensures ProviderRun(env, start, context, body, asyncConfirm, asyncCancel, isAssignableFrom, nullValue)
         == Run([ExistBeginCall(context), CleanCall(false)], Returned(nullValue))
  {
  }

  class CompensableTransactionInterceptor {
    var transactionManager: Environment
    var delayCancelExceptions: set<ClassName>
    /** `TransactionUtils.isLegalTransactionContext`, which is not part of this model. */
    const isLegalTransactionContext: (bool, CompensableMethodContext) -> bool
    /** `ReflectionUtils.getNullValue`: the value a method of the given return type answers when it does nothing. */
    const nullValueOf: ClassName -> Arg
    /** `Class.isAssignableFrom` over the application's classes. */
    const isAssignableFrom: Hierarchy

    constructor (transactionManager: Environment, isLegalTransactionContext: (bool, CompensableMethodContext) -> bool,
                 nullValueOf: ClassName -> Arg, isAssignableFrom: Hierarchy)
      ensures this.transactionManager == transactionManager && delayCancelExceptions == {}
      ensures this.isLegalTransactionContext == isLegalTransactionContext
      ensures this.nullValueOf == nullValueOf && this.isAssignableFrom == isAssignableFrom
    {
      this.transactionManager := transactionManager;
      delayCancelExceptions := {};
      this.isLegalTransactionContext := isLegalTransactionContext;
      this.nullValueOf := nullValueOf;
      this.isAssignableFrom := isAssignableFrom;
    }

    method SetTransactionManager(transactionManager: Environment)
      modifies this
      ensures this.transactionManager == transactionManager
      ensures delayCancelExceptions == old(delayCancelExceptions)
    {
      this.transactionManager := transactionManager;
    }

    /** `setDelayCancelExceptions` adds to the configured classes; it never removes one. */
    method SetDelayCancelExceptions(delayCancelExceptions: set<ClassName>)
      modifies this
      ensures this.delayCancelExceptions == old(this.delayCancelExceptions) + delayCancelExceptions
      ensures transactionManager == old(transactionManager)
    {
      this.delayCancelExceptions := this.delayCancelExceptions + delayCancelExceptions;
    }

    /** The delay-cancel classes of a ROOT call: the interceptor's own and the annotation's. */
    function AllDelayCancelExceptions(annotation: CompensableAnnotation): (all: set<ClassName>)
      reads this
      ensures forall c :: c in all <==> c in delayCancelExceptions || c in annotation.delayCancelExceptions
    {
      delayCancelExceptions + SetOf(annotation.delayCancelExceptions)
    }

    /**
     * `interceptCompensableMethod` from trace position `start`, on the argument values `args`:
     * build the method context; ask whether a transaction is active; check legality; dispatch
     * on the role.
     */
    function InterceptRun(start: nat, pjp: JoinPoint, args: seq<Arg>): Run
      reads this
      requires |pjp.signature.parameterAnnotations| <= |args|
    {
      match EditorGet(pjp.signature.compensable.transactionContextEditor, pjp.signature.parameterTypes, args)
      case Failure(e) => Run([], Threw(EditorException(e)))
      case Success(context) =>
        Prefixed(IsActiveCall, DispatchRun(start + 1, ContextOf(pjp, context), transactionManager.active(start), args))
    }

    /**
     * The legality check and the switch on the role, from trace position `start`, `active` being
     * the answer of `isTransactionActive`: an illegal context throws a SystemException; ROOT and
     * PROVIDER take their own paths; NORMAL just proceeds.
     */
    function DispatchRun(start: nat, mc: CompensableMethodContext, active: bool, args: seq<Arg>): Run
      reads this
      requires |mc.pjp.signature.parameterAnnotations| <= |args|
    {
      if !isLegalTransactionContext(active, mc) then Run([], Threw(ILLEGAL_CONTEXT))
      else match MethodRoleOf(mc.propagation, active, mc.transactionContext.Some?)
      case ROOT =>
        RootRun(transactionManager, start, UniqueIdentityOf(mc.pjp.signature.parameterAnnotations, args), mc.pjp.body,
          mc.compensable.asyncConfirm, mc.compensable.asyncCancel, AllDelayCancelExceptions(mc.compensable), isAssignableFrom)
      case PROVIDER =>
        ProviderRun(transactionManager, start, mc.transactionContext.value, mc.pjp.body,
          mc.compensable.asyncConfirm, mc.compensable.asyncCancel, isAssignableFrom, nullValueOf(mc.pjp.signature.returnType))
      case _ => Run([ProceedCall], mc.pjp.body)
    }

    /** `interceptCompensableMethod`. */
    method InterceptCompensableMethod(pjp: JoinPoint) returns (r: Completion)
      requires pjp.WellFormed()
      modifies transactionManager
      ensures var run := InterceptRun(|old(transactionManager.trace)|, pjp, pjp.args[..]);
        transactionManager.trace == old(transactionManager.trace) + run.events && r == run.result
    {
      var context := NewCompensableMethodContext(pjp);
      if context.Failure? {
        return Threw(EditorException(context.error));
      }
      var mc := context.value;
      assert mc == ContextOf(pjp, mc.transactionContext);
      ghost var before := transactionManager.trace;
      var isTransactionActive := transactionManager.IsTransactionActive();
      ghost var run := DispatchRun(|before| + 1, mc, isTransactionActive, pjp.args[..]);
      r := Dispatch(mc, isTransactionActive);
      AppendAssociative(before, [IsActiveCall], run.events);
    }

    /** The legality check and the `switch` on the method role in `interceptCompensableMethod`. */
    method Dispatch(mc: CompensableMethodContext, isTransactionActive: bool) returns (r: Completion)
      requires mc.pjp.WellFormed() && mc == ContextOf(mc.pjp, mc.transactionContext)
      modifies transactionManager
      ensures var run := DispatchRun(|old(transactionManager.trace)|, mc, isTransactionActive, mc.pjp.args[..]);
        transactionManager.trace == old(transactionManager.trace) + run.events && r == run.result
    {
      if !isLegalTransactionContext(isTransactionActive, mc) {
        return Threw(ILLEGAL_CONTEXT);
      }
      match MethodRoleOf(mc.propagation, isTransactionActive, mc.transactionContext.Some?) {
        case ROOT =>
          r := RootMethodProceed(mc);
        case PROVIDER =>
          r := ProviderMethodProceed(mc);
        case NORMAL =>
          r := transactionManager.Proceed(mc.pjp);
        case CONSUMER =>
          assert false;
      }
    }

    /** `rootMethodProceed`. */
    method RootMethodProceed(mc: CompensableMethodContext) returns (r: Completion)
      requires mc.pjp.WellFormed() && mc.signature == mc.pjp.signature
      modifies transactionManager
      ensures var run := RootRun(transactionManager, |old(transactionManager.trace)|, UniqueIdentityOf(mc.signature.parameterAnnotations, mc.pjp.args[..]),
                                 mc.pjp.body, mc.compensable.asyncConfirm, mc.compensable.asyncCancel, AllDelayCancelExceptions(mc.compensable), isAssignableFrom);
        transactionManager.trace == old(transactionManager.trace) + run.events && r == run.result
    {
      var manager := transactionManager;
      var asyncConfirm := mc.compensable.asyncConfirm;
      var asyncCancel := mc.compensable.asyncCancel;
      var allDelayCancelExceptions := delayCancelExceptions + SetOf(mc.compensable.delayCancelExceptions);
      var withTransaction := false;
      var pending: Completion;
      var uniqueIdentity := GetUniqueIdentity(mc);
      ghost var before := manager.trace;
      var began := manager.Call(BeginCall(uniqueIdentity));
      ghost var tried := [BeginCall(uniqueIdentity)];
      if began.Some? {
        pending := Threw(began.value);
      } else {
        withTransaction := true;
        ghost var run := TryRun(manager, |before| + 1, mc.pjp.body, asyncConfirm, asyncCancel, allDelayCancelExceptions, isAssignableFrom);
        pending := RootTry(mc, asyncConfirm, asyncCancel, allDelayCancelExceptions);
        AppendAssociative(before, tried, run.events);
        tried := tried + run.events;
      }
      var cleaned := manager.Call(CleanCall(withTransaction));
      AppendAssociative(before, tried, [CleanCall(withTransaction)]);
      r := if cleaned.Some? then Threw(cleaned.value) else pending;
    }

    /** The try block of `rootMethodProceed`: proceed, then commit, or roll back unless the exception is delay-cancel. */
    method RootTry(mc: CompensableMethodContext, asyncConfirm: bool, asyncCancel: bool, allDelayCancelExceptions: set<ClassName>) returns (pending: Completion)
      modifies transactionManager
      ensures var run := TryRun(transactionManager, |old(transactionManager.trace)|, mc.pjp.body, asyncConfirm, asyncCancel, allDelayCancelExceptions, isAssignableFrom);
        transactionManager.trace == old(transactionManager.trace) + run.events && pending == run.result
    {
      var manager := transactionManager;
      var returned := manager.Proceed(mc.pjp);
      pending := returned;
      match returned {
        case Threw(tryingException) =>
          var delayed := IsDelayCancelException(tryingException, allDelayCancelExceptions);
          if !delayed {
            var rolledBack := manager.Call(RollbackCall(asyncCancel));
            if rolledBack.Some? {
              pending := Threw(rolledBack.value);
            }
          }
        case Returned(_) =>
          var committed := manager.Call(CommitCall(asyncConfirm));
          if committed.Some? {
            pending := Threw(committed.value);
          }
      }
    }

    /** `providerMethodProceed`. */
    method ProviderMethodProceed(mc: CompensableMethodContext) returns (r: Completion)
      requires mc.transactionContext.Some?
      modifies transactionManager
      ensures var run := ProviderRun(transactionManager, |old(transactionManager.trace)|, mc.transactionContext.value, mc.pjp.body,
                                     mc.compensable.asyncConfirm, mc.compensable.asyncCancel, isAssignableFrom, nullValueOf(mc.signature.returnType));
        transactionManager.trace == old(transactionManager.trace) + run.events && r == run.result
    {
      var manager := transactionManager;
      var context := mc.transactionContext.value;
      var nullValue := nullValueOf(mc.signature.returnType);
      var withTransaction := false;
      var pending: Completion;
      ghost var before := manager.trace;
      ghost var tried: seq<Event>;
      match ValueOf(context.status) {
        case TRYING =>
          var began := manager.Call(NewBeginCall(context));
          tried := [NewBeginCall(context)];
          if began.Some? {
            pending := Threw(began.value);
          } else {
            withTransaction := true;
            pending := manager.Proceed(mc.pjp);
            AppendAssociative(before, tried, [ProceedCall]);
            tried := tried + [ProceedCall];
          }
        case CONFIRMING =>
          tried := SettleTry(manager, |before|, context, CommitCall(mc.compensable.asyncConfirm), isAssignableFrom, nullValue).events;
          pending, withTransaction := Settle(context, CommitCall(mc.compensable.asyncConfirm), nullValue);
        case CANCELLING =>
          tried := SettleTry(manager, |before|, context, RollbackCall(mc.compensable.asyncCancel), isAssignableFrom, nullValue).events;
          pending, withTransaction := Settle(context, RollbackCall(mc.compensable.asyncCancel), nullValue);
      }
      var cleaned := manager.Call(CleanCall(withTransaction));
      AppendAssociative(before, tried, [CleanCall(withTransaction)]);
      r := if cleaned.Some? then Threw(cleaned.value) else pending;
    }

    /**
     * The CONFIRMING and CANCELLING cases of `providerMethodProceed`'s try block: look the branch
     * transaction up, then commit or roll it back (`phase`), turning a NoExistedTransactionException
     * into the null value; `withTransaction` tells whether the lookup found the transaction.
     */
    method Settle(context: TransactionContext, phase: Event, nullValue: Arg) returns (pending: Completion, withTransaction: bool)
      modifies transactionManager
      ensures var run := SettleTry(transactionManager, |old(transactionManager.trace)|, context, phase, isAssignableFrom, nullValue);
        transactionManager.trace == old(transactionManager.trace) + run.events && pending == run.result
      ensures withTransaction == transactionManager.raises(|old(transactionManager.trace)|, ExistBeginCall(context)).None?
    {
      var manager := transactionManager;
      withTransaction := false;
      pending := Returned(nullValue);
      var began := manager.Call(ExistBeginCall(context));
      if began.Some? {
        pending := Swallow(began.value, isAssignableFrom, nullValue);
      } else {
        withTransaction := true;
        var ended := manager.Call(phase);
        if ended.Some? {
          pending := Swallow(ended.value, isAssignableFrom, nullValue);
        }
      }
    }

    /** `isDelayCancelException`: walks the set in no particular order and stops at the first class that matches. */
    method IsDelayCancelException(throwable: Throwable, delayCancelExceptions: set<ClassName>) returns (b: bool)
      ensures b <==> IsDelayCancel(throwable, delayCancelExceptions, isAssignableFrom)
    {
      var remaining := delayCancelExceptions;
      while remaining != {}
        invariant remaining <= delayCancelExceptions
        invariant forall c :: c in delayCancelExceptions && c !in remaining ==> !DelayCancelMatch(c, throwable, isAssignableFrom)
        decreases |remaining|
      {
        var delayCancelException :| delayCancelException in remaining;
        if DelayCancelMatch(delayCancelException, throwable, isAssignableFrom) {
          return true;
        }
        remaining := remaining - {delayCancelException};
      }
      return false;
    }
  }
  /** A failing editor throws out of the method context's constructor, before any manager call. */
  lemma EditorFailureFirst(interceptor: CompensableTransactionInterceptor, start: nat, pjp: JoinPoint, args: seq<Arg>)
    requires |pjp.signature.parameterAnnotations| <= |args|
    requires EditorGet(pjp.signature.compensable.transactionContextEditor, pjp.signature.parameterTypes, args).Failure?
    ensures interceptor.InterceptRun(start, pjp, args).events == []
    ensures interceptor.InterceptRun(start, pjp, args).result.Threw?
  {
  }

  /** An illegal context: a SystemException right after `isTransactionActive`, before any begin, proceed or cleanup. */
  lemma IllegalContextStops(interceptor: CompensableTransactionInterceptor, start: nat, pjp: JoinPoint, args: seq<Arg>, context: Option<TransactionContext>)
    requires |pjp.signature.parameterAnnotations| <= |args|
    requires EditorGet(pjp.signature.compensable.transactionContextEditor, pjp.signature.parameterTypes, args) == Success(context)
    requires !interceptor.isLegalTransactionContext(interceptor.transactionManager.active(start), ContextOf(pjp, context))
    ensures interceptor.InterceptRun(start, pjp, args) == Run([IsActiveCall], Threw(ILLEGAL_CONTEXT))
  {
  }

  /** A NORMAL call only asks whether a transaction is active and proceeds: no begin, commit, rollback or cleanup. */
  lemma NormalJustProceeds(interceptor: CompensableTransactionInterceptor, start: nat, pjp: JoinPoint, args: seq<Arg>, context: Option<TransactionContext>)
    requires |pjp.signature.parameterAnnotations| <= |args|
    requires EditorGet(pjp.signature.compensable.transactionContextEditor, pjp.signature.parameterTypes, args) == Success(context)
    requires interceptor.isLegalTransactionContext(interceptor.transactionManager.active(start), ContextOf(pjp, context))
    requires MethodRoleOf(pjp.signature.compensable.propagation, interceptor.transactionManager.active(start), context.Some?) == NORMAL
    ensures interceptor.InterceptRun(start, pjp, args) == Run([IsActiveCall, ProceedCall], pjp.body)
  {
  }
}
