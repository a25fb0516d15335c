/** `send_notifications`: who is told about a join, and with what text. The platform lookups
    it makes (channel and user fetches, the member and presence caches) are inputs here. */
module Notifications {
  import opened Types
  import opened Store
  import opened JoinEvent

  /** The platform's presence status; `Other` stands for any status this code does not name. */
  datatype OnlineStatus = Online | Idle | DoNotDisturb | Invisible | Offline | Other

  /** What the guild cache returns for the channel's guild: its name and its presences. */
  datatype GuildView = GuildView(name: string, presences: map<UserId, OnlineStatus>)

  /** What fetching the joined channel yields when it is a guild channel: its name, its current
      members (none when the member lookup fails) and its guild (none when not cached). */
  datatype ChannelView = ChannelView(name: string, members: Option<seq<UserId>>, guild: Option<GuildView>)

  /** A direct message handed to `send_msg`. */
  datatype Dm = Dm(recipient: UserId, text: string)

  /** The statuses under which a subscriber is told: Online and Idle only. */
  predicate Reachable(status: OnlineStatus) {
    match status
    case Online => true
    case Idle => true
    case DoNotDisturb => false
    case Invisible => false
    case Offline => false
    case Other => false
  }

  /** The skip rules of the loop, in their order: not the joiner, not already in the channel,
      a presence entry with a reachable status, and a user the platform can fetch. */
  predicate ShouldNotify(uid: UserId, joiner: UserId, members: seq<UserId>,
                         presences: map<UserId, OnlineStatus>, users: map<UserId, string>) {
    && uid != joiner
    && uid !in members
    && uid in presences && Reachable(presences[uid])
    && uid in users
  }

  /** The subscribers the loop sends to, in list order. */
  function Recipients(subs: seq<UserId>, joiner: UserId, members: seq<UserId>,
                      presences: map<UserId, OnlineStatus>, users: map<UserId, string>): seq<UserId>
  {
    if subs == [] then []
    else
      var rest := Recipients(subs[1..], joiner, members, presences, users);
      if ShouldNotify(subs[0], joiner, members, presences, users) then [subs[0]] + rest else rest
  }

  /** A subscriber recorded several times is sent to as many times; one who fails a skip rule
      is never sent to. */
  lemma {:induction false} RecipientsCount(subs: seq<UserId>, joiner: UserId, members: seq<UserId>,
                                           presences: map<UserId, OnlineStatus>, users: map<UserId, string>, u: UserId)
    ensures multiset(Recipients(subs, joiner, members, presences, users))[u] ==
            if ShouldNotify(u, joiner, members, presences, users) then multiset(subs)[u] else 0
  {
    if subs != [] {
      assert subs == [subs[0]] + subs[1..];
      RecipientsCount(subs[1..], joiner, members, presences, users, u);
    }
  }

  /** Hence a user is sent to exactly when subscribed and passing every skip rule. */
  lemma RecipientsMembership(subs: seq<UserId>, joiner: UserId, members: seq<UserId>,
                             presences: map<UserId, OnlineStatus>, users: map<UserId, string>, u: UserId)
    ensures u in Recipients(subs, joiner, members, presences, users) <==>
            u in subs && ShouldNotify(u, joiner, members, presences, users)
  {
    RecipientsCount(subs, joiner, members, presences, users, u);
    assert u in subs <==> multiset(subs)[u] > 0;
  }

  /** Every recipient is a subscriber passing every skip rule. */
  lemma RecipientsEligible(subs: seq<UserId>, joiner: UserId, members: seq<UserId>,
                           presences: map<UserId, OnlineStatus>, users: map<UserId, string>)
    ensures forall k :: 0 <= k < |Recipients(subs, joiner, members, presences, users)| ==>
              var u := Recipients(subs, joiner, members, presences, users)[k];
              u in subs && ShouldNotify(u, joiner, members, presences, users)
  {
    var rs := Recipients(subs, joiner, members, presences, users);
    forall k | 0 <= k < |rs| ensures rs[k] in subs && ShouldNotify(rs[k], joiner, members, presences, users) {
      RecipientsMembership(subs, joiner, members, presences, users, rs[k]);
    }
  }

  /** Filtering commutes with concatenation, so the recipients keep the subscribers' order. */
  lemma {:induction false} RecipientsAppend(a: seq<UserId>, b: seq<UserId>, joiner: UserId, members: seq<UserId>,
                                            presences: map<UserId, OnlineStatus>, users: map<UserId, string>)
    ensures Recipients(a + b, joiner, members, presences, users) ==
            Recipients(a, joiner, members, presences, users) + Recipients(b, joiner, members, presences, users)
  {
    if a == [] {
      assert a + b == b;
    } else {
      assert (a + b)[0] == a[0];
      assert (a + b)[1..] == a[1..] + b;
      RecipientsAppend(a[1..], b, joiner, members, presences, users);
    }
  }

  /** The joiner's name as fetched, or "Someone" when the fetch fails. */
  function JoinerName(users: map<UserId, string>, joiner: UserId): string {
    if joiner in users then users[joiner] else "Someone"
  }

  /** The text every recipient receives: "{joiner} joined {channel} on {guild}!". */
  function JoinMessage(joinerName: string, channelName: string, guildName: string): string {
    joinerName + " joined " + channelName + " on " + guildName + "!"
  }

  /** One message with `text` to each of `recipients`, in order. */
  function Addressed(recipients: seq<UserId>, text: string): (r: seq<Dm>)
    ensures |r| == |recipients|
    ensures forall k :: 0 <= k < |r| ==> r[k] == Dm(recipients[k], text)
  {
    if recipients == [] then [] else [Dm(recipients[0], text)] + Addressed(recipients[1..], text)
  }

  /** Addressing distributes over concatenation of the recipient list. */
  lemma AddressedAppend(a: seq<UserId>, b: seq<UserId>, text: string)
    ensures Addressed(a + b, text) == Addressed(a, text) + Addressed(b, text)
  {
  }

  /** The messages `send_notifications` hands out for the voice state `state`: nothing when the
      state has no channel, the channel has no record, or a platform lookup fails; otherwise the
      join text to every subscriber that passes the skip rules, in subscriber order. */
  function JoinNotifications(store: seq<NotifChannel>, state: VoiceState, channel: Option<ChannelView>,
                         users: map<UserId, string>): (r: seq<Dm>)
    ensures state.channelId.None? ==> r == []
    ensures state.channelId.Some? && IndexOfChannel(store, state.channelId.value).None? ==> r == []
    ensures channel.None? || channel.value.guild.None? ==> r == []
    ensures r != [] ==>
              && state.channelId.Some? && channel.Some? && channel.value.guild.Some?
              && var cv, g := channel.value, channel.value.guild.value;
                 var members := if cv.members.Some? then cv.members.value else [];
                 forall k :: 0 <= k < |r| ==>
                   && r[k].text == JoinMessage(JoinerName(users, state.userId), cv.name, g.name)
                   && r[k].recipient in SubscribersOf(store, state.channelId.value)
                   && ShouldNotify(r[k].recipient, state.userId, members, g.presences, users)
  {
    match state.channelId
    case None => []
    case Some(cid) =>
      match IndexOfChannel(store, cid)
      case None => []
      case Some(i) =>
        match channel
        case None => []
        case Some(cv) =>
          match cv.guild
          case None => []
          case Some(g) =>
            var members := if cv.members.Some? then cv.members.value else [];
            var text := JoinMessage(JoinerName(users, state.userId), cv.name, g.name);
            var rs := Recipients(store[i].subscribedUsers, state.userId, members, g.presences, users);
            RecipientsEligible(store[i].subscribedUsers, state.userId, members, g.presences, users);
            Addressed(rs, text)
  }

  /** Every subscriber passing the skip rules is sent to, as many times as they are recorded. */
  lemma EveryEligibleSubscriberIsNotified(store: seq<NotifChannel>, state: VoiceState, cv: ChannelView,
                                          g: GuildView, users: map<UserId, string>, u: UserId)
    requires state.channelId.Some? && cv.guild == Some(g)
    requires u in SubscribersOf(store, state.channelId.value)
    requires ShouldNotify(u, state.userId, if cv.members.Some? then cv.members.value else [], g.presences, users)
    ensures Dm(u, JoinMessage(JoinerName(users, state.userId), cv.name, g.name)) in JoinNotifications(store, state, Some(cv), users)
  {
    var members := if cv.members.Some? then cv.members.value else [];
    var i := IndexOfChannel(store, state.channelId.value).value;
    var rs := Recipients(store[i].subscribedUsers, state.userId, members, g.presences, users);
    RecipientsMembership(store[i].subscribedUsers, state.userId, members, g.presences, users, u);
    var k :| 0 <= k < |rs| && rs[k] == u;
    assert JoinNotifications(store, state, Some(cv), users)[k].recipient == u;
  }

  /** A worked fan-out: of the subscribers of channel 7, user 1 is already in it, user 2 has no
      presence entry, user 3 is online, user 4 does not disturb and user 5 is the joiner; only
      user 3 is told, and the joiner's unknown name reads "Someone". */
  lemma FanOutExample()
    ensures var store := [NotifChannel(6, [3]), NotifChannel(7, [1, 2, 3, 4, 5])];
            var g := GuildView("Home", map[1 := Online, 3 := Online, 4 := DoNotDisturb, 5 := Online]);
            var cv := ChannelView("Lounge", Some([1, 5]), Some(g));
            var users := map[1 := "ann", 2 := "bob", 3 := "cy", 4 := "dee"];
            JoinNotifications(store, VoiceState(5, Some(7)), Some(cv), users) == [Dm(3, "Someone joined Lounge on Home!")]
  {
    var store := [NotifChannel(6, [3]), NotifChannel(7, [1, 2, 3, 4, 5])];
    var presences := map[1 := Online, 3 := Online, 4 := DoNotDisturb, 5 := Online];
    var users := map[1 := "ann", 2 := "bob", 3 := "cy", 4 := "dee"];
    var members: seq<UserId> := [1, 5];
    IndexOfChannelIs(store, 7, 1);
    var subs: seq<UserId> := [1, 2, 3, 4, 5];
    assert subs[1..] == [2, 3, 4, 5] && subs[2..] == [3, 4, 5] && subs[3..] == [4, 5] && subs[4..] == [5];
    assert Recipients([5], 5, members, presences, users) == [];
    assert Recipients([4, 5], 5, members, presences, users) == [];
    assert Recipients([3, 4, 5], 5, members, presences, users) == [3];
    assert Recipients([2, 3, 4, 5], 5, members, presences, users) == [3];
    assert Recipients(subs, 5, members, presences, users) == [3];
    assert JoinerName(users, 5) == "Someone";
    var text := JoinMessage("Someone", "Lounge", "Home");
    assert text == "Someone joined Lounge on Home!";
    assert Addressed([3], text) == [Dm(3, text)];
  }

  /** The loop of `send_notifications`, skipping subscribers with `continue` as the source does. */
  method SendNotifications(store: NotifStore, state: VoiceState, channel: Option<ChannelView>,
                           users: map<UserId, string>) returns (sent: seq<Dm>)
    ensures sent == JoinNotifications(store.channels, state, channel, users)
  {
    sent := [];
    if state.channelId.None? {
      return;
    }
    var cid := state.channelId.value;
    var found := store.Find(cid);
    if found.None? || channel.None? || channel.value.guild.None? {
      return;
    }
    var idx := found.value;
    var cv := channel.value;
    var g := cv.guild.value;
    var members := if cv.members.Some? then cv.members.value else [];
    var text := JoinMessage(JoinerName(users, state.userId), cv.name, g.name);
    var subs := store.channels[idx].subscribedUsers;
    for i := 0 to |subs|
      invariant sent == Addressed(Recipients(subs[..i], state.userId, members, g.presences, users), text)
    {
      var uid := subs[i];
      assert subs[..i + 1] == subs[..i] + [uid];
      RecipientsAppend(subs[..i], [uid], state.userId, members, g.presences, users);
      AddressedAppend(Recipients(subs[..i], state.userId, members, g.presences, users), [uid], text);
      if uid == state.userId {
        continue;
      }
      if uid in members {
        continue;
      }
      if uid !in g.presences {
        continue;
      }
      if !Reachable(g.presences[uid]) || uid !in users {
        continue;
      }
      sent := sent + [Dm(uid, text)];
    }
    assert subs[..|subs|] == subs;
  }
}
