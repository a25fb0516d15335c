/** Values shared by every part of the model: Rust's `u64` ids, an `Option`, and the
    persisted subscription record of src/model.rs. */
module Types {

  /** Rust's `u64`. Ids are only compared, never computed with, so no wrap-around arises. */
  newtype uint64 = x: int | 0 <= x < 0x1_0000_0000_0000_0000

  type UserId = uint64
  type ChannelId = uint64

  datatype Option<+T> = None | Some(value: T)

  /** One persisted record: a voice channel id and the ordered list of users who asked
      to be told when someone joins it. The list may hold the same user more than once. */
  datatype NotifChannel = NotifChannel(id: ChannelId, subscribedUsers: seq<UserId>)

  /** The index of the first occurrence of `x` in `s`, if any: `str::find` for a character,
      `Iterator::position` for an element. */
  function IndexOf<T(==)>(s: seq<T>, x: T): (r: Option<nat>)
    ensures r.None? <==> x !in s
    ensures r.Some? ==> r.value < |s| && s[r.value] == x && x !in s[..r.value]
  {
    if s == [] then None
    else if s[0] == x then Some(0)
    else
      match IndexOf(s[1..], x)
      case None => None
      case Some(k) => assert s[1..][..k] == s[1..k + 1]; Some(k + 1)
  }
}
