/** Types shared by every part of the model. */
module Basics {

  datatype Option<+T> = None | Some(value: T)

  type Byte = b: int | 0 <= b < 256

  type Bytes = seq<Byte>

  type U32 = n: int | 0 <= n < 0x1_0000_0000

  const TWO_TO_32: int := 0x1_0000_0000

  /** The next version on the way from one version to another. */
  function NextVersion(current: U32, target: U32): U32
    requires current != target
  {
    if current < target then current + 1 else current - 1
  }

  type ThreadId = nat
  type ObjectId = nat
  type ComponentType = nat
  type ComponentData = Bytes

  /** The last element of a nonempty sequence, and everything before it. */
  function Last<T>(s: seq<T>): T
    requires s != []
  {
    s[|s| - 1]
  }

  function Front<T>(s: seq<T>): seq<T>
    requires s != []
  {
    s[..|s| - 1]
  }

  lemma Associate<T>(xs: seq<T>, ys: seq<T>, zs: seq<T>)
    ensures (xs + ys) + zs == xs + (ys + zs)
  {
  }
}
