/** The three phases of a TCC transaction and their integer codes, as stored in the STATUS column and in a propagated context. */
module TransactionStatuses {
  import opened JavaTypes

  datatype TransactionStatus = TRYING | CONFIRMING | CANCELLING {

    /** `getId`: the code of the phase; decoding it gives the phase back. */
    function GetId(): (id: Int32)
      ensures 1 <= id <= 3
      ensures ValueOf(id) == this
    {
      match this
      case TRYING => 1
      case CONFIRMING => 2
      case CANCELLING => 3
    }
  }

  /** `valueOf(int)`: 1 and 2 decode to TRYING and CONFIRMING; every other integer falls to the default branch, CANCELLING. */
  function ValueOf(id: Int32): (s: TransactionStatus)
    ensures s == TRYING <==> id == 1
    ensures s == CONFIRMING <==> id == 2
    ensures s == CANCELLING <==> id != 1 && id != 2
  {
    match id
    case 1 => TRYING
    case 2 => CONFIRMING
    case _ => CANCELLING
  }

  /** The codes the enum declares. */
  lemma StatusIds()
    ensures TRYING.GetId() == 1 && CONFIRMING.GetId() == 2 && CANCELLING.GetId() == 3
  {
  }

  /** Distinct phases have distinct codes. */
  lemma GetIdInjective(s: TransactionStatus, t: TransactionStatus)
    ensures s.GetId() == t.GetId() ==> s == t
  {
  }

  /** Encoding after decoding is the identity exactly on the three codes in use: 0, negatives and anything above 3 do not survive. */
  lemma GetIdOfValueOf(n: Int32)
    ensures ValueOf(n).GetId() == n <==> 1 <= n <= 3
  {
  }
}
