/** Vocabulary shared by the components. */
module Common {

  datatype Option<+T> = None | Some(value: T)

  /** Namespace and name of a KscribeDiagnosis resource. */
  datatype Key = Key(namespace: string, name: string)

  /** `Unset` is the empty phase of a resource whose status was never written. */
  datatype Phase = Unset | Pending | Diagnosing | Done | Partial | Failed

  predicate Terminal(p: Phase) {
    p == Done || p == Partial || p == Failed
  }

  /** The terminal phases that carry a stored diagnosis. */
  predicate Concluded(p: Phase) {
    p == Done || p == Partial
  }

  /** A condition as a number, for counting. */
  function Bit(b: bool): nat {
    if b then 1 else 0
  }

  lemma {:induction false} SubsetSize<T>(a: set<T>, b: set<T>)
    requires a <= b
    ensures |a| <= |b|
  {
    assert a + (b - a) == b;
  }

  lemma {:induction false} Assoc<T>(a: seq<T>, b: seq<T>, c: seq<T>)
    ensures (a + b) + c == a + (b + c)
  {}
}
