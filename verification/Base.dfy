/** Vocabulary shared by every module: optional values, instants and byte strings. */
module Base {

  datatype Option<+T> = None | Some(value: T) {
    predicate IsFailure() {
      None?
    }

    function PropagateFailure<U>(): Option<U>
      requires None?
    {
      None
    }

    function Extract(): T
      requires Some?
    {
      value
    }
  }

  /** An instant, in any fixed unit. No relation between two clock readings is assumed. */
  type Time = int

  type Byte = x: int | 0 <= x < 256

  type Bytes = seq<Byte>

  /** A token digest, as the columns of type BYTEA hold it. */
  datatype Digest = Digest(bytes: Bytes)

  /** The name under which the protected-token store keeps a plaintext token. */
  datatype Reference = Reference(text: string)

  /** The length of a SHA-256 digest. */
  const DIGEST_LENGTH := 32

  /** PostgreSQL's btrim(s) = '': nothing but spaces. */
  predicate Blank(s: string) {
    forall i :: 0 <= i < |s| ==> s[i] == ' '
  }
}
