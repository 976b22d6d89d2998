/** Small shared datatypes: optional values and the outcomes of a remote write; and the size of a
    subset. */
module Wrappers {

  datatype Option<+T> = None | Some(value: T)

  datatype Result<+T> = Ok(value: T) | Error(message: string)

  /** How a database write can end: acknowledged, failed before it took effect,
      or committed with its acknowledgement lost. */
  datatype Fault = Ack | NoEffect | LostAck

  lemma {:induction false} SubsetSize<T>(a: set<T>, b: set<T>)
    requires a <= b
    ensures |a| <= |b|
  {
    if a != {} {
      var x :| x in a;
      SubsetSize(a - {x}, b - {x});
    }
  }
}
