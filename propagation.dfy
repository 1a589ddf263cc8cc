/** The four propagation modes a compensable method may declare. */
module Propagations {
  import opened JavaTypes

  /** Each constant carries its integer `value`, fixed when the constant is created (a datatype value can never change). */
  datatype Propagation = REQUIRED | SUPPORTS | MANDATORY | REQUIRES_NEW {

    /** `value()`: the code of the mode, REQUIRED=0, SUPPORTS=1, MANDATORY=2, REQUIRES_NEW=3. */
    function Value(): (v: Int32)
      ensures 0 <= v <= 3
      ensures FromValue(v) == this
    {
      match this
      case REQUIRED => 0
      case SUPPORTS => 1
      case MANDATORY => 2
      case REQUIRES_NEW => 3
    }
  }

  /** The inverse of `Value` on 0..3; the Java enum has no such lookup, it serves to state that `Value` is one-to-one. */
  ghost function FromValue(v: Int32): Propagation
    requires 0 <= v <= 3
  {
    if v == 0 then REQUIRED else if v == 1 then SUPPORTS else if v == 2 then MANDATORY else REQUIRES_NEW
  }

  /** The codes the enum declares. */
  lemma PropagationValues()
    ensures REQUIRED.Value() == 0 && SUPPORTS.Value() == 1 && MANDATORY.Value() == 2 && REQUIRES_NEW.Value() == 3
  {
  }

  /** Distinct modes have distinct codes. */
  lemma {:induction false} ValueInjective(p: Propagation, q: Propagation)
    ensures p.Value() == q.Value() ==> p == q
  {
    if p.Value() == q.Value() {
      calc {
        p;
        FromValue(p.Value());
        FromValue(q.Value());
        q;
      }
    }
  }
}
