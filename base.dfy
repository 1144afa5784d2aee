/**
 * Shared vocabulary of the chat backend: identifiers, the broker message
 * record, and the Option/Result wrappers used for the collaborators'
 * partial answers.
 */
module Base {

  datatype Option<+T> = None | Some(value: T)

  datatype Result<+T, +E> = Ok(value: T) | Err(error: E)

  /** A 128-bit UUID (users, chats), as its unsigned value. */
  newtype Uuid = x: int | 0 <= x < 0x1_0000_0000_0000_0000_0000_0000_0000_0000
  type UserId = Uuid
  type ChatId = Uuid

  /** The record carried on the broker topic: `PandaMessage` in schema.rs. */
  datatype PandaMessage = PandaMessage(chatId: ChatId, senderId: UserId, content: string)

  /** Occurrences of `x` in `s`, counted from the back so that it peels like a left fold. */
  function Count<T(==)>(s: seq<T>, x: T): (n: nat)
    ensures n <= |s|
    ensures n == 0 <==> x !in s
  {
    if s == [] then 0
    else Count(s[..|s| - 1], x) + (if s[|s| - 1] == x then 1 else 0)
  }

  /** `k` copies of `x`. */
  function Repeat<T>(x: T, k: nat): (r: seq<T>)
    ensures |r| == k
    ensures forall i | 0 <= i < k :: r[i] == x
  {
    if k == 0 then [] else Repeat(x, k - 1) + [x]
  }

  function Min(a: int, b: int): int
  {
    if a <= b then a else b
  }
}
