/**
 * The @Compensable annotation's attributes and the two strategies for finding and injecting
 * the TransactionContext argument of a compensable method.
 */
module Compensable {
  import opened Wrappers
  import opened JavaTypes
  import opened Seqs
  import opened Propagations
  import opened TransactionContexts

  /** The closed set of context-injection strategies the annotation can name. */
  datatype EditorClass = DefaultTransactionContextEditor | NullableTransactionContextEditor

  /** The attributes of one @Compensable annotation. */
  datatype CompensableAnnotation = CompensableAnnotation(
    propagation: Propagation,
    confirmMethod: string,
    cancelMethod: string,
    transactionContextEditor: EditorClass,
    delayCancelExceptions: seq<ClassName>,
    asyncConfirm: bool,
    asyncCancel: bool)

  /** An annotation written without attributes. */
  function Defaults(): (c: CompensableAnnotation)
    ensures c.propagation == REQUIRED
    ensures c.confirmMethod == "" && c.cancelMethod == ""
    ensures c.transactionContextEditor == DefaultTransactionContextEditor
    ensures c.delayCancelExceptions == []
    ensures !c.asyncConfirm && !c.asyncCancel
  {
    CompensableAnnotation(REQUIRED, "", "", DefaultTransactionContextEditor, [], false, false)
  }

  const TRANSACTION_CONTEXT_CLASS: ClassName := "org.mengyun.tcctransaction.api.TransactionContext"

  /** What an editor's `get` or `set` can throw: indexing past the argument array, or casting a non-context. */
  datatype EditorError = ArrayIndexOutOfBounds | ClassCast

  predicate IsContextType(t: ClassName) {
    t == TRANSACTION_CONTEXT_CLASS
  }

  /** The parameter the default editor uses: the first whose declared type is exactly TransactionContext, or -1. */
  function ContextPosition(parameterTypes: seq<ClassName>): (position: int)
    ensures -1 <= position < |parameterTypes|
  {
    FirstIndex(parameterTypes, IsContextType)
  }

  /** `getTransactionContextParamPosition`: a scan that stops at the first parameter typed TransactionContext. */
  method GetTransactionContextParamPosition(parameterTypes: seq<ClassName>) returns (position: int)
    ensures position == ContextPosition(parameterTypes)
    ensures -1 <= position < |parameterTypes|
    ensures position >= 0 ==> parameterTypes[position] == TRANSACTION_CONTEXT_CLASS
    ensures forall i :: 0 <= i < |parameterTypes| && (position < 0 || i < position) ==> parameterTypes[i] != TRANSACTION_CONTEXT_CLASS
  {
    position := -1;
    var i := 0;
    while i < |parameterTypes|
      invariant 0 <= i <= |parameterTypes|
      invariant forall j :: 0 <= j < i ==> parameterTypes[j] != TRANSACTION_CONTEXT_CLASS
    {
      if parameterTypes[i] == TRANSACTION_CONTEXT_CLASS {
        position := i;
        break;
      }
      i := i + 1;
    }
    FirstIndexIsUnique(parameterTypes, IsContextType, position);
  }

  /** Any index with the two defining properties of `FirstIndex` is the one it returns. */
  lemma FirstIndexIsUnique<T>(s: seq<T>, p: T -> bool, k: int)
    requires -1 <= k < |s|
    requires k >= 0 ==> p(s[k])
    requires forall j :: 0 <= j < |s| && (k < 0 || j < k) ==> !p(s[j])
    ensures k == FirstIndex(s, p)
  {
  }

  /** What the default editor's `get` yields for these parameter types and argument values. */
  function ContextAt(parameterTypes: seq<ClassName>, args: seq<Arg>): Result<Option<TransactionContext>, EditorError> {
    var position := ContextPosition(parameterTypes);
    if position < 0 then Success(None)
    else if position >= |args| then Failure(ArrayIndexOutOfBounds)
    else match args[position]
      case Null => Success(None)
      case Context(c) => Success(Some(c))
      case Obj(_, _) => Failure(ClassCast)
  }

  /** What the default editor's `set` leaves in the argument array, or the exception it throws. */
  function WithContext(parameterTypes: seq<ClassName>, args: seq<Arg>, context: TransactionContext): (r: Result<seq<Arg>, EditorError>)
    ensures r.Success? ==> |r.value| == |args|
  {
    var position := ContextPosition(parameterTypes);
    if position < 0 then Success(args)
    else if position >= |args| then Failure(ArrayIndexOutOfBounds)
    else Success(args[position := Context(context)])
  }

  /** DefaultTransactionContextEditor.get: the argument at the context position, null when there is no such parameter. */
  method DefaultGet(parameterTypes: seq<ClassName>, args: array<Arg>) returns (r: Result<Option<TransactionContext>, EditorError>)
    ensures r == ContextAt(parameterTypes, args[..])
    ensures ContextPosition(parameterTypes) < 0 ==> r == Success(None)
    ensures r.Success? && r.value.Some? ==> args[ContextPosition(parameterTypes)] == Context(r.value.value)
  {
    var position := GetTransactionContextParamPosition(parameterTypes);
    if position >= 0 {
      if position >= args.Length {
        return Failure(ArrayIndexOutOfBounds);
      }
      match args[position] {
        case Null => r := Success(None);
        case Context(c) => r := Success(Some(c));
        case Obj(_, _) => r := Failure(ClassCast);
      }
      return;
    }
    return Success(None);
  }

  /** DefaultTransactionContextEditor.set: writes the context into the context-typed slot, in place; no slot, no change. */
  method DefaultSet(context: TransactionContext, parameterTypes: seq<ClassName>, args: array<Arg>) returns (r: Outcome<EditorError>)
    modifies args
    ensures match WithContext(parameterTypes, old(args[..]), context)
      case Success(written) => r == Pass && args[..] == written
      case Failure(e) => r == Fail(e) && args[..] == old(args[..])
  {
    var position := GetTransactionContextParamPosition(parameterTypes);
    if position >= 0 {
      if position >= args.Length {
        return Fail(ArrayIndexOutOfBounds);
      }
      args[position] := Context(context);
    }
    return Pass;
  }

  /** The strategy-independent `get`: the Nullable editor never finds a context. */
  function EditorGet(editor: EditorClass, parameterTypes: seq<ClassName>, args: seq<Arg>): Result<Option<TransactionContext>, EditorError> {
    match editor
    case DefaultTransactionContextEditor => ContextAt(parameterTypes, args)
    case NullableTransactionContextEditor => Success(None)
  }

  /** The strategy-independent `set`: the Nullable editor leaves the arguments alone. */
  function EditorSet(editor: EditorClass, parameterTypes: seq<ClassName>, args: seq<Arg>, context: TransactionContext): Result<seq<Arg>, EditorError> {
    match editor
    case DefaultTransactionContextEditor => WithContext(parameterTypes, args, context)
    case NullableTransactionContextEditor => Success(args)
  }

  /** Dispatches `get` on the editor the annotation names. */
  method Get(editor: EditorClass, parameterTypes: seq<ClassName>, args: array<Arg>) returns (r: Result<Option<TransactionContext>, EditorError>)
    ensures r == EditorGet(editor, parameterTypes, args[..])
    ensures editor == NullableTransactionContextEditor ==> r == Success(None)
  {
    match editor
    case DefaultTransactionContextEditor => r := DefaultGet(parameterTypes, args);
    case NullableTransactionContextEditor => r := Success(None);
  }

  /** Dispatches `set` on the editor the annotation names. */
  method Set(editor: EditorClass, context: TransactionContext, parameterTypes: seq<ClassName>, args: array<Arg>) returns (r: Outcome<EditorError>)
    modifies args
    ensures match EditorSet(editor, parameterTypes, old(args[..]), context)
      case Success(written) => r == Pass && args[..] == written
      case Failure(e) => r == Fail(e) && args[..] == old(args[..])
  {
    match editor
    case DefaultTransactionContextEditor => r := DefaultSet(context, parameterTypes, args);
    case NullableTransactionContextEditor => r := Pass;
  }

  /** `set` touches the context slot only and leaves the array as it was when there is no such slot. */
  lemma WithContextFrame(parameterTypes: seq<ClassName>, args: seq<Arg>, context: TransactionContext)
    requires WithContext(parameterTypes, args, context).Success?
    ensures var written := WithContext(parameterTypes, args, context).value;
      var position := ContextPosition(parameterTypes);
      && (position < 0 ==> written == args)
      && (position >= 0 ==> written[position] == Context(context))
      && forall i :: 0 <= i < |args| && i != position ==> written[i] == args[i]
  {
  }

  /** `get` after a successful `set` with the same parameter types returns the context just set. */
  lemma GetAfterSet(editor: EditorClass, parameterTypes: seq<ClassName>, args: seq<Arg>, context: TransactionContext)
    requires editor == DefaultTransactionContextEditor
    requires ContextPosition(parameterTypes) >= 0
    requires EditorSet(editor, parameterTypes, args, context).Success?
    ensures EditorGet(editor, parameterTypes, EditorSet(editor, parameterTypes, args, context).value) == Success(Some(context))
  {
  }

  /** The last non-null TransactionContext among the arguments, or None. */
  function LastContext(args: seq<Arg>): Option<TransactionContext> {
    if |args| == 0 then None
    else if args[|args| - 1].Context? then Some(args[|args| - 1].context)
    else LastContext(args[..|args| - 1])
  }

  /** `getTransactionContextFromArgs`: scans every argument (no break), keeping the last context seen. */
  method GetTransactionContextFromArgs(args: array<Arg>) returns (transactionContext: Option<TransactionContext>)
    ensures transactionContext == LastContext(args[..])
  {
    transactionContext := None;
    for i := 0 to args.Length
      invariant transactionContext == LastContext(args[..i])
    {
      assert args[..i + 1][..i] == args[..i];
      if args[i].Context? {
        transactionContext := Some(args[i].context);
      }
    }
    assert args[..args.Length] == args[..];
  }

  /** The scan finds nothing exactly when no argument is a context. */
  lemma {:induction false} LastContextNone(args: seq<Arg>)
    ensures LastContext(args).None? <==> forall i :: 0 <= i < |args| ==> !args[i].Context?
  {
    if |args| > 0 && !args[|args| - 1].Context? {
      var front := args[..|args| - 1];
      LastContextNone(front);
      assert forall i :: 0 <= i < |front| ==> args[i] == front[i];
    }
  }

  /** A context found is an argument's, and no argument after it is a context. */
  lemma {:induction false} LastContextSome(args: seq<Arg>)
    requires LastContext(args).Some?
    ensures exists i ::
              && 0 <= i < |args|
              && args[i] == Context(LastContext(args).value)
              && forall j :: i < j < |args| ==> !args[j].Context?
  {
    var n := |args| - 1;
    if !args[n].Context? {
      var front := args[..n];
      LastContextSome(front);
      var i :| 0 <= i < |front| && front[i] == Context(LastContext(front).value) &&
        forall j :: i < j < |front| ==> !front[j].Context?;
      assert args[i] == front[i];
      assert forall j :: i < j < |args| ==> !args[j].Context?;
    } else {
      assert args[n] == Context(LastContext(args).value);
    }
  }
}
