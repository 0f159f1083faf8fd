/** The registry's compatibility levels. A level travels as a plain string,
    so a value the server sends that is none of the named levels is kept as is. */
module Compatibility {

  type Compatibility = string

  /** Local "no level" result of the error paths; the registry never sends it. */
  const Zero: Compatibility := ""
  /** No compatibility between schemas is expected. */
  const None: Compatibility := "NONE"
  /** Both forward and backward compatibility are expected. */
  const Full: Compatibility := "FULL"
  /** Every previous schema can read the new one. */
  const Forward: Compatibility := "FORWARD"
  /** The new schema can read every previous one. */
  const Backward: Compatibility := "BACKWARD"

  /** One of the four levels the registry defines. */
  predicate IsNamed(c: Compatibility) {
    c == None || c == Full || c == Forward || c == Backward
  }

  /** The five constants are pairwise distinct, and Zero, the empty string,
      is the only one that is not a level the registry defines. */
  lemma ConstantsDistinct()
    ensures Zero == "" && !IsNamed(Zero)
    ensures IsNamed(None) && IsNamed(Full) && IsNamed(Forward) && IsNamed(Backward)
    ensures None != Full && None != Forward && None != Backward
    ensures Full != Forward && Full != Backward && Forward != Backward
    ensures forall c :: IsNamed(c) ==> c != Zero && |c| >= 4
  {
  }
}
