/**
 * Replaying a confirm or cancel call. Instance resolution, method lookup and the reflective
 * call itself are abstract: a `Registry` answers whether a (target, method, parameter types)
 * triple can be resolved and how each call made through it ends, and logs every call made.
 */
module Terminator {
  import opened Wrappers
  import opened JavaTypes
  import opened TransactionContexts
  import opened Compensable
  import opened MethodContext

  /**
   * The call a participant will replay. InvocationContext.java is not part of this model; the
   * fields kept are those the replay reads, and none of them is reassigned. The argument array
   * is shared: editors write into it in place.
   */
  class InvocationContext {
    const targetClass: ClassName
    const methodName: string
    const parameterTypes: seq<ClassName>
    const args: array<Arg>

    constructor (targetClass: ClassName, methodName: string, parameterTypes: seq<ClassName>, args: array<Arg>)
      ensures this.targetClass == targetClass && this.methodName == methodName
      ensures this.parameterTypes == parameterTypes && this.args == args
    {
      this.targetClass := targetClass;
      this.methodName := methodName;
      this.parameterTypes := parameterTypes;
      this.args := args;
    }
  }

  /** One reflective call that was made: target, method, the very argument array passed, the context injected and the editor used. */
  datatype Invocation = Invocation(
    targetClass: ClassName,
    methodName: string,
    parameterTypes: seq<ClassName>,
    args: array<Arg>,
    context: TransactionContext,
    editor: EditorClass)

  /** The cause wrapped in the SystemException that `invoke` throws. */
  datatype InvokeError = TargetNotResolved | EditorFailed(editorError: EditorError) | InvocationFailed(cause: Throwable)

  /** Instance resolution and reflective invocation, with a log of the calls made. */
  class Registry {
    var log: seq<Invocation>
    /** Whether a target instance can be obtained and the method found on it. */
    const resolves: (ClassName, string, seq<ClassName>) -> bool
    /** How the n-th call made through the registry ends, given the argument values it receives. */
    const outcome: (nat, Invocation, seq<Arg>) -> Completion

    constructor (resolves: (ClassName, string, seq<ClassName>) -> bool, outcome: (nat, Invocation, seq<Arg>) -> Completion)
      ensures log == [] && this.resolves == resolves && this.outcome == outcome
    {
      log := [];
      this.resolves := resolves;
      this.outcome := outcome;
    }

    /** `method.invoke(target, args)`. */
    method Call(call: Invocation, argValues: seq<Arg>) returns (c: Completion)
      modifies this
      ensures log == old(log) + [call]
      ensures c == outcome(|old(log)|, call, argValues)
    {
      c := outcome(|log|, call, argValues);
      log := log + [call];
    }
  }

  /** The call `invoke` makes for this invocation context once its name is non-empty. */
  function CallOf(context: TransactionContext, inv: InvocationContext, editor: EditorClass): Invocation {
    Invocation(inv.targetClass, inv.methodName, inv.parameterTypes, inv.args, context, editor)
  }

  /**
   * What `invoke` did, between the state before the call and the state after: nothing at all
   * for an empty method name; nothing but a SystemException when resolution or the editor
   * fails; otherwise the editor's write into the argument array, then exactly one call on that
   * same array, whose own result or exception (wrapped) is the outcome.
   */
  twostate predicate Invoked(context: TransactionContext, inv: InvocationContext, editor: EditorClass, registry: Registry, new r: Result<Arg, InvokeError>)
    reads registry, inv.args
  {
    if !IsNotEmpty(inv.methodName) then
      r == Success(Null) && registry.log == old(registry.log) && inv.args[..] == old(inv.args[..])
    else if !registry.resolves(inv.targetClass, inv.methodName, inv.parameterTypes) then
      r == Failure(TargetNotResolved) && registry.log == old(registry.log) && inv.args[..] == old(inv.args[..])
    else match EditorSet(editor, inv.parameterTypes, old(inv.args[..]), context)
      case Failure(e) =>
        r == Failure(EditorFailed(e)) && registry.log == old(registry.log) && inv.args[..] == old(inv.args[..])
      case Success(written) =>
        && inv.args[..] == written
        && registry.log == old(registry.log) + [CallOf(context, inv, editor)]
        && r == match registry.outcome(|old(registry.log)|, CallOf(context, inv, editor), written)
                case Returned(v) => Success(v)
                case Threw(t) => Failure(InvocationFailed(t))
  }

  /** `Terminator.invoke`: guard on the method name, resolve, let the editor inject the context, then call. */
  method Invoke(context: TransactionContext, inv: InvocationContext, editor: EditorClass, registry: Registry) returns (r: Result<Arg, InvokeError>)
    modifies registry, inv.args
    ensures Invoked(context, inv, editor, registry, r)
  {
    if !IsNotEmpty(inv.methodName) {
      return Success(Null);
    }
    if !registry.resolves(inv.targetClass, inv.methodName, inv.parameterTypes) {
      return Failure(TargetNotResolved);
    }
    var edited := Set(editor, context, inv.parameterTypes, inv.args);
    if edited.Fail? {
      return Failure(EditorFailed(edited.error));
    }
    var c := registry.Call(CallOf(context, inv, editor), inv.args[..]);
    match c {
      case Returned(v) => r := Success(v);
      case Threw(t) => r := Failure(InvocationFailed(t));
    }
  }
}
