/** Small wrapper types shared by the whole model. */
module Base {

  /** An optional value, as Go's nil-able error or pointer. */
  datatype Option<+T> = None | Some(value: T)

  /** A collaborator's answer: a value, or the error it returned. */
  datatype Result<+T> = Success(value: T) | Failure(error: string)

  /** Raft/memdb indexes are Go `uint64` values; the endpoint only passes them through. */
  type Index = i: int | 0 <= i < 0x1_0000_0000_0000_0000
}
