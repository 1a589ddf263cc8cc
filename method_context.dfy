/**
 * The intercepted call as the interceptor sees it: the annotated method, its arguments, the
 * propagated context found in them, and the role the call plays in the distributed transaction.
 */
module MethodContext {
  import opened Wrappers
  import opened JavaTypes
  import opened Seqs
  import opened Propagations
  import opened TransactionContexts
  import opened Compensable

  /** MethodRole.java. CONSUMER is declared there but never produced by the role resolution. */
  datatype MethodRole = ROOT | CONSUMER | PROVIDER | NORMAL

  /** How the wrapped business method ends when `proceed` runs it. */
  datatype Completion = Returned(value: Arg) | Threw(exception: Throwable)

  /** The resolved @Compensable method: what reflection would report about it. */
  datatype MethodSignature = MethodSignature(
    name: string,
    parameterTypes: seq<ClassName>,
    parameterAnnotations: seq<seq<ClassName>>,
    returnType: ClassName,
    compensable: CompensableAnnotation)

  /**
   * The join point: the method, the argument array the call carries, and the way the
   * business method would end if proceeded (the body itself is abstract).
   */
  datatype JoinPoint = JoinPoint(signature: MethodSignature, args: array<Arg>, body: Completion) {
    /** The JVM hands over one argument, and one annotation list, per declared parameter. */
    predicate WellFormed() {
      |signature.parameterTypes| == args.Length && |signature.parameterAnnotations| == args.Length
    }
  }

  /** The fields `CompensableMethodContext`'s constructor assigns; none of them is reassigned later. */
  datatype CompensableMethodContext = CompensableMethodContext(
    pjp: JoinPoint,
    signature: MethodSignature,
    compensable: CompensableAnnotation,
    propagation: Propagation,
    transactionContext: Option<TransactionContext>)

  /**
   * The constructor: the annotation's propagation, and the context that the annotation's editor
   * finds in the arguments; an exception thrown by the editor escapes the constructor.
   */
  method NewCompensableMethodContext(pjp: JoinPoint) returns (r: Result<CompensableMethodContext, EditorError>)
    ensures var found := EditorGet(pjp.signature.compensable.transactionContextEditor, pjp.signature.parameterTypes, pjp.args[..]);
      match found
      case Success(context) =>
        r.Success? && r.value.pjp == pjp && r.value.signature == pjp.signature &&
        r.value.compensable == pjp.signature.compensable &&
        r.value.propagation == pjp.signature.compensable.propagation &&
        r.value.transactionContext == context
      case Failure(e) => r == Failure(e)
  {
    var compensable := pjp.signature.compensable;
    var found := Get(compensable.transactionContextEditor, pjp.signature.parameterTypes, pjp.args);
    match found {
      case Success(context) =>
        r := Success(CompensableMethodContext(pjp, pjp.signature, compensable, compensable.propagation, context));
      case Failure(e) =>
        r := Failure(e);
    }
  }

  /** The role decision table, written per propagation mode. */
  function RoleByPropagation(propagation: Propagation, isTransactionActive: bool, hasContext: bool): MethodRole {
    match propagation
    case REQUIRED =>
      if isTransactionActive then NORMAL else if hasContext then PROVIDER else ROOT
    case SUPPORTS => NORMAL
    case MANDATORY => if !isTransactionActive && hasContext then PROVIDER else NORMAL
    case REQUIRES_NEW => ROOT
  }

  /**
   * `getMethodRole`: a function of the propagation, the active-transaction flag and whether a
   * propagated context is present, and of nothing else.
   */
  function MethodRoleOf(propagation: Propagation, isTransactionActive: bool, hasContext: bool): (r: MethodRole)
    ensures r == RoleByPropagation(propagation, isTransactionActive, hasContext)
    ensures r == ROOT <==> (propagation == REQUIRED && !isTransactionActive && !hasContext) || propagation == REQUIRES_NEW
    ensures r == PROVIDER <==> propagation != REQUIRES_NEW && (propagation == REQUIRED || propagation == MANDATORY) && !isTransactionActive && hasContext
    ensures r != CONSUMER
  {
    if (propagation == REQUIRED && !isTransactionActive && !hasContext) || propagation == REQUIRES_NEW then ROOT
    else if (propagation == REQUIRED || propagation == MANDATORY) && !isTransactionActive && hasContext then PROVIDER
    else NORMAL
  }

  /** SUPPORTS never takes part; an active transaction makes every mode but REQUIRES_NEW a plain call. */
  lemma NormalCases(propagation: Propagation, isTransactionActive: bool, hasContext: bool)
    ensures propagation == SUPPORTS ==> MethodRoleOf(propagation, isTransactionActive, hasContext) == NORMAL
    ensures isTransactionActive && propagation != REQUIRES_NEW ==> MethodRoleOf(propagation, isTransactionActive, hasContext) == NORMAL
    ensures propagation == REQUIRES_NEW ==> MethodRoleOf(propagation, isTransactionActive, hasContext) == ROOT
  {
  }

  const UNIQUE_IDENTITY_CLASS: ClassName := "org.mengyun.tcctransaction.api.UniqueIdentity"

  predicate HasUniqueIdentity(annotations: seq<ClassName>) {
    UNIQUE_IDENTITY_CLASS in annotations
  }

  /** The argument at the first parameter annotated @UniqueIdentity, or null. */
  function UniqueIdentityOf(parameterAnnotations: seq<seq<ClassName>>, args: seq<Arg>): (uid: Arg)
    requires |parameterAnnotations| <= |args|
  {
    var i := FirstIndex(parameterAnnotations, HasUniqueIdentity);
    if i < 0 then Null else args[i]
  }

  /** `getUniqueIdentity`: two nested scans, returning as soon as an annotation is @UniqueIdentity. */
  method GetUniqueIdentity(mc: CompensableMethodContext) returns (uid: Arg)
    requires mc.pjp.WellFormed() && mc.signature == mc.pjp.signature
    ensures uid == UniqueIdentityOf(mc.signature.parameterAnnotations, mc.pjp.args[..])
    ensures (forall i :: 0 <= i < |mc.signature.parameterAnnotations| ==> UNIQUE_IDENTITY_CLASS !in mc.signature.parameterAnnotations[i]) ==> uid == Null
  {
    var annotations := mc.signature.parameterAnnotations;
    var params := mc.pjp.args;
    for i := 0 to |annotations|
      invariant forall k :: 0 <= k < i ==> !HasUniqueIdentity(annotations[k])
    {
      for j := 0 to |annotations[i]|
        invariant forall m :: 0 <= m < j ==> annotations[i][m] != UNIQUE_IDENTITY_CLASS
      {
        if annotations[i][j] == UNIQUE_IDENTITY_CLASS {
          FirstIndexIsUnique(annotations, HasUniqueIdentity, i);
          return params[i];
        }
      }
    }
    FirstIndexIsUnique(annotations, HasUniqueIdentity, -1);
    return Null;
  }
}
