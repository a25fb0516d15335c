/** The subscription store: the flat, ordered list of `NotifChannel` records held behind
    `NotifData`, the lookups on it, and the edits the add and remove commands make. */
module Store {
  import opened Types

  /** `iter().find(|c| c.id == id)` / `iter().position(|c| c.id == id)`: the index of the
      first record with channel id `id`. */
  function IndexOfChannel(s: seq<NotifChannel>, id: ChannelId): (r: Option<nat>)
    ensures r.None? <==> forall i :: 0 <= i < |s| ==> s[i].id != id
    ensures r.Some? ==> r.value < |s| && s[r.value].id == id &&
                        forall i :: 0 <= i < r.value ==> s[i].id != id
  {
    if s == [] then None
    else if s[0].id == id then Some(0)
    else
      match IndexOfChannel(s[1..], id)
      case None => None
      case Some(k) => Some(k + 1)
  }

  /** The first index holding id `id` is what `IndexOfChannel` finds. */
  lemma IndexOfChannelIs(s: seq<NotifChannel>, id: ChannelId, i: nat)
    requires i < |s| && s[i].id == id
    requires forall j :: 0 <= j < i ==> s[j].id != id
    ensures IndexOfChannel(s, id) == Some(i)
  {
    var r := IndexOfChannel(s, id);
    assert r.Some?;
  }

  /** `Vec::swap_remove(i)`: the element at `i` is taken out and the last element moves into
      its place; every other position keeps its element, and exactly one copy of `s[i]` is lost. */
  function SwapRemove(s: seq<UserId>, i: nat): (r: seq<UserId>)
    requires i < |s|
    ensures |r| == |s| - 1
    ensures forall j :: 0 <= j < |r| && j != i ==> r[j] == s[j]
    ensures i < |r| ==> r[i] == s[|s| - 1]
    ensures multiset(r) == multiset(s) - multiset{s[i]}
  {
    if i == |s| - 1 then
      assert s == s[..i] + [s[i]];
      s[..i]
    else
      assert s == s[..i] + [s[i]] + s[i + 1..|s| - 1] + [s[|s| - 1]];
      s[..i] + [s[|s| - 1]] + s[i + 1..|s| - 1]
  }

  /** No two records share a channel id. */
  predicate UniqueIds(s: seq<NotifChannel>) {
    forall i, j :: 0 <= i < j < |s| ==> s[i].id != s[j].id
  }

  /** The subscribers of channel `id` as the store records them: those of its first record,
      none when there is no record. */
  function SubscribersOf(s: seq<NotifChannel>, id: ChannelId): seq<UserId> {
    match IndexOfChannel(s, id)
    case None => []
    case Some(i) => s[i].subscribedUsers
  }

  /** The store after `user` subscribes to `id`: find-or-create the record, then append. */
  function Subscribe(s: seq<NotifChannel>, id: ChannelId, user: UserId): seq<NotifChannel> {
    match IndexOfChannel(s, id)
    case Some(i) => s[i := s[i].(subscribedUsers := s[i].subscribedUsers + [user])]
    case None => s + [NotifChannel(id, [user])]
  }

  /** The store after `user` unsubscribes from `id`: none when the channel has no record or
      the user is not in its list; otherwise the first occurrence is swap-removed. */
  function Unsubscribe(s: seq<NotifChannel>, id: ChannelId, user: UserId): Option<seq<NotifChannel>> {
    match IndexOfChannel(s, id)
    case None => None
    case Some(i) =>
      match IndexOf(s[i].subscribedUsers, user)
      case None => None
      case Some(k) => Some(s[i := s[i].(subscribedUsers := SwapRemove(s[i].subscribedUsers, k))])
  }

  /** Subscribing appends `user` to the end of the channel's list, with no duplicate check. */
  lemma SubscribeAppends(s: seq<NotifChannel>, id: ChannelId, user: UserId)
    ensures SubscribersOf(Subscribe(s, id, user), id) == SubscribersOf(s, id) + [user]
    ensures multiset(SubscribersOf(Subscribe(s, id, user), id))[user] ==
            multiset(SubscribersOf(s, id))[user] + 1
  {
    var r := Subscribe(s, id, user);
    match IndexOfChannel(s, id)
    case Some(i) => IndexOfChannelIs(r, id, i);
    case None => IndexOfChannelIs(r, id, |s|);
  }

  /** Subscribing touches only the channel's first record, creating it at the end of the
      store when missing: every other record, and every id, stays as it was. */
  lemma SubscribeKeepsOthers(s: seq<NotifChannel>, id: ChannelId, user: UserId)
    ensures |Subscribe(s, id, user)| == if IndexOfChannel(s, id).Some? then |s| else |s| + 1
    ensures forall j :: 0 <= j < |s| && IndexOfChannel(s, id) != Some(j) ==> Subscribe(s, id, user)[j] == s[j]
    ensures forall j :: 0 <= j < |s| ==> Subscribe(s, id, user)[j].id == s[j].id
    ensures IndexOfChannel(s, id).None? ==> Subscribe(s, id, user)[|s|] == NotifChannel(id, [user])
    ensures forall d :: d != id ==> SubscribersOf(Subscribe(s, id, user), d) == SubscribersOf(s, d)
  {
    var r := Subscribe(s, id, user);
    match IndexOfChannel(s, id)
    case Some(i) =>
      forall d | d != id ensures SubscribersOf(r, d) == SubscribersOf(s, d) {
        SameIdsSameIndex(s, r, d);
      }
    case None =>
      forall d | d != id ensures SubscribersOf(r, d) == SubscribersOf(s, d) {
        AppendOtherId(s, NotifChannel(id, [user]), d);
      }
  }

  /** Two stores with the same ids at the same positions find a channel at the same index. */
  lemma SameIdsSameIndex(s: seq<NotifChannel>, r: seq<NotifChannel>, d: ChannelId)
    requires |s| == |r| && forall j :: 0 <= j < |s| ==> s[j].id == r[j].id
    ensures IndexOfChannel(r, d) == IndexOfChannel(s, d)
  {
  }

  /** Appending a record with another id does not change where `d` is found. */
  lemma AppendOtherId(s: seq<NotifChannel>, c: NotifChannel, d: ChannelId)
    requires c.id != d
    ensures IndexOfChannel(s + [c], d) == IndexOfChannel(s, d)
  {
    var r := s + [c];
    match IndexOfChannel(s, d)
    case None =>
    case Some(i) => IndexOfChannelIs(r, d, i);
  }

  /** Sending the add command twice records the user twice. */
  lemma SubscribeTwice(s: seq<NotifChannel>, id: ChannelId, user: UserId)
    ensures SubscribersOf(Subscribe(Subscribe(s, id, user), id, user), id) == SubscribersOf(s, id) + [user, user]
    ensures multiset(SubscribersOf(Subscribe(Subscribe(s, id, user), id, user), id))[user] ==
            multiset(SubscribersOf(s, id))[user] + 2
  {
    SubscribeAppends(s, id, user);
    SubscribeAppends(Subscribe(s, id, user), id, user);
  }

  /** Find-or-create keeps channel ids unique. */
  lemma SubscribeKeepsUniqueIds(s: seq<NotifChannel>, id: ChannelId, user: UserId)
    requires UniqueIds(s)
    ensures UniqueIds(Subscribe(s, id, user))
  {
    SubscribeKeepsOthers(s, id, user);
  }

  /** Removal changes nothing exactly when the user is not among the channel's recorded
      subscribers (which includes the channel having no record). */
  lemma UnsubscribeFailsWhenAbsent(s: seq<NotifChannel>, id: ChannelId, user: UserId)
    ensures Unsubscribe(s, id, user).None? <==> user !in SubscribersOf(s, id)
  {
  }

  /** A successful removal swap-removes the first occurrence of the user from the channel's
      list: the list is one shorter, its former last element fills the freed slot, every
      other position is kept, and exactly one copy of the user is gone. */
  lemma UnsubscribeSwapRemoves(s: seq<NotifChannel>, id: ChannelId, user: UserId)
    requires user in SubscribersOf(s, id)
    ensures Unsubscribe(s, id, user).Some?
    ensures var before, after := SubscribersOf(s, id), SubscribersOf(Unsubscribe(s, id, user).value, id);
            var k := IndexOf(before, user).value;
            && |after| == |before| - 1
            && (k < |after| ==> after[k] == before[|before| - 1])
            && (forall j :: 0 <= j < |after| && j != k ==> after[j] == before[j])
            && multiset(after) == multiset(before) - multiset{user}
  {
    var i := IndexOfChannel(s, id).value;
    var r := Unsubscribe(s, id, user).value;
    IndexOfChannelIs(r, id, i);
  }

  /** A successful removal touches only the channel's first record: the store keeps its
      length, its ids and every other record. */
  lemma UnsubscribeKeepsOthers(s: seq<NotifChannel>, id: ChannelId, user: UserId)
    requires user in SubscribersOf(s, id)
    ensures Unsubscribe(s, id, user).Some?
    ensures |Unsubscribe(s, id, user).value| == |s|
    ensures forall j :: 0 <= j < |s| ==> Unsubscribe(s, id, user).value[j].id == s[j].id
    ensures forall j :: 0 <= j < |s| && IndexOfChannel(s, id) != Some(j) ==> Unsubscribe(s, id, user).value[j] == s[j]
    ensures forall d :: d != id ==> SubscribersOf(Unsubscribe(s, id, user).value, d) == SubscribersOf(s, d)
    ensures UniqueIds(s) ==> UniqueIds(Unsubscribe(s, id, user).value)
  {
    var r := Unsubscribe(s, id, user).value;
    forall d | d != id ensures SubscribersOf(r, d) == SubscribersOf(s, d) {
      SameIdsSameIndex(s, r, d);
    }
  }

  /** With duplicates allowed, one removal leaves the user subscribed unless they were
      recorded exactly once. */
  lemma UnsubscribedIffSingleCopy(s: seq<NotifChannel>, id: ChannelId, user: UserId)
    requires user in SubscribersOf(s, id)
    ensures user !in SubscribersOf(Unsubscribe(s, id, user).value, id) <==>
            multiset(SubscribersOf(s, id))[user] == 1
  {
    UnsubscribeSwapRemoves(s, id, user);
  }

  /** `NotifData`'s value: the store shared by the command and voice-state handlers. Each
      handler runs with exclusive access to it. */
  class NotifStore {
    var channels: seq<NotifChannel>

    /** A store holding the records loaded at process start. */
    constructor (loaded: seq<NotifChannel>)
      ensures channels == loaded
    {
      channels := loaded;
    }

    /** `get_notif_channel`: the index of the first record with channel id `id`, if any. */
    method Find(id: ChannelId) returns (idx: Option<nat>)
      ensures idx == IndexOfChannel(channels, id)
    {
      var i := 0;
      while i < |channels|
        invariant 0 <= i <= |channels|
        invariant forall j :: 0 <= j < i ==> channels[j].id != id
      {
        if channels[i].id == id {
          return Some(i);
        }
        i := i + 1;
      }
      return None;
    }

    /** `get_or_create_notif_channel`: the index of the first record with id `id`, leaving the
        store as it is; when there is none, an empty record is pushed and its index returned. */
    method GetOrCreate(id: ChannelId) returns (idx: nat)
      modifies this
      ensures idx < |channels| && channels[idx].id == id
      ensures IndexOfChannel(old(channels), id).Some? ==>
                channels == old(channels) && Some(idx) == IndexOfChannel(old(channels), id)
      ensures IndexOfChannel(old(channels), id).None? ==>
                channels == old(channels) + [NotifChannel(id, [])] && idx == |old(channels)|
      ensures UniqueIds(old(channels)) ==> UniqueIds(channels)
    {
      var found := Find(id);
      match found
      case Some(i) =>
        idx := i;
      case None =>
        channels := channels + [NotifChannel(id, [])];
        idx := |channels| - 1;
    }

    /** `subscribed_users.push(user)` on the record at `idx`. */
    method PushSubscriber(idx: nat, user: UserId)
      requires idx < |channels|
      modifies this
      ensures channels == old(channels)[idx := old(channels)[idx].(subscribedUsers := old(channels)[idx].subscribedUsers + [user])]
    {
      var c := channels[idx];
      channels := channels[idx := c.(subscribedUsers := c.subscribedUsers + [user])];
    }

    /** `position` + `swap_remove` on the record at `idx`: reports whether `user` was in its
        list and, if so, swap-removes the first occurrence; otherwise nothing changes. */
    method RemoveSubscriber(idx: nat, user: UserId) returns (removed: bool)
      requires idx < |channels|
      modifies this
      ensures removed <==> user in old(channels)[idx].subscribedUsers
      ensures removed ==> channels == old(channels)[idx := old(channels)[idx].(subscribedUsers :=
                SwapRemove(old(channels)[idx].subscribedUsers, IndexOf(old(channels)[idx].subscribedUsers, user).value))]
      ensures !removed ==> channels == old(channels)
    {
      var users := channels[idx].subscribedUsers;
      var pos := Position(users, user);
      match pos
      case None =>
        removed := false;
      case Some(k) =>
        channels := channels[idx := channels[idx].(subscribedUsers := SwapRemove(users, k))];
        removed := true;
    }
  }

  /** `iter().position(|&u| u == user)` as the loop it runs. */
  method Position(users: seq<UserId>, user: UserId) returns (pos: Option<nat>)
    ensures pos == IndexOf(users, user)
  {
    var i := 0;
    while i < |users|
      invariant 0 <= i <= |users|
      invariant user !in users[..i]
    {
      if users[i] == user {
        return Some(i);
      }
      assert users[..i + 1] == users[..i] + [users[i]];
      i := i + 1;
    }
    assert users[..i] == users;
    return None;
  }
}
