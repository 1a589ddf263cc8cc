/**
 * The values that cross the network boundary: a transaction identifier and the context
 * (identifier plus phase code) injected into a participant's arguments. TransactionXid.java
 * and TransactionContext.java are not part of this model; only the fields the core reads are kept.
 */
module TransactionContexts {
  import opened Wrappers
  import opened JavaTypes

  /** A global transaction id and a branch qualifier, both byte strings. Being a value, any copy handed out is independent of the original. */
  datatype Xid = Xid(globalTransactionId: seq<bv8>, branchQualifier: seq<bv8>)

  /** A propagated context: the identifier (possibly null) and the integer code of the phase. */
  datatype TransactionContext = TransactionContext(xid: Option<Xid>, status: Int32)

  /**
   * A Java argument value, as the editors see it: null, an instance of TransactionContext
   * (or of a subclass), or any other object, known by its class and an identity.
   */
  datatype Arg = Null | Context(context: TransactionContext) | Obj(cls: ClassName, id: int)
}
