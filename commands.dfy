/** The subscription commands of the direct-message interface: `handle_add_vc_notify` and
    `handle_remove_vc_notify`, each one a sequence of steps on the shared store. */
module Commands {
  import opened Types
  import opened Arguments
  import opened Store

  /** What a handler answers its author: a text, or the list of shared voice channels
      (`send_list_of_common_channels`, whose contents come from the platform). */
  datatype Reply = Text(text: string) | CommonChannelList

  const InvalidChannelId := "Not a valid channel ID!"
  const Subscribed := "Subscribed to notifications for channel!"
  const RemoveUsage := "Usage: `!remove-vc-notify <channel id>`!"
  const UnknownChannel := "You are not subscribed to this channel!"
  /** The source spells this second rejection differently from the first. */
  const NotSubscribed := "You are noit subscribed to this channel!"
  const Unsubscribed := "Unscribed from notifications for this channel!"

  /** `!add-vc-notify <id>` from `author`. Without an argument the author gets the channel
      list, and with one that `parse` rejects a rejection; neither changes the store or saves
      it. Otherwise the author is appended to the channel's list, creating its record if need
      be, and the store is saved. */
  method HandleAddVcNotify(store: NotifStore, content: string, author: UserId, parse: string -> Option<uint64>)
    returns (reply: Reply, saved: bool)
    modifies store
    ensures ChannelArgument(content).None? ==>
              reply == CommonChannelList && !saved && store.channels == old(store.channels)
    ensures ChannelArgument(content).Some? && parse(ChannelArgument(content).value).None? ==>
              reply == Text(InvalidChannelId) && !saved && store.channels == old(store.channels)
    ensures ChannelArgument(content).Some? && parse(ChannelArgument(content).value).Some? ==>
              && reply == Text(Subscribed) && saved
              && store.channels == Subscribe(old(store.channels), parse(ChannelArgument(content).value).value, author)
  {
    var channel := ChannelArgument(content);
    if channel.None? {
      return CommonChannelList, false;
    }
    var channelId := parse(channel.value);
    if channelId.None? {
      return Text(InvalidChannelId), false;
    }
    ghost var before := store.channels;
    var id := channelId.value;
    var idx := store.GetOrCreate(id);
    ghost var created := store.channels;
    store.PushSubscriber(idx, author);
    if IndexOfChannel(before, id).None? {
      assert created[idx].subscribedUsers + [author] == [author];
      assert store.channels == before + [NotifChannel(id, [author])];
    }
    reply, saved := Text(Subscribed), true;
  }

  /** `!remove-vc-notify <id>` from `author`. A missing or unparsable argument, an unknown
      channel, or an author not in the channel's list each get their own rejection and leave
      the store unsaved and unchanged. Otherwise the first occurrence of the author is
      swap-removed from the list and the store is saved. */
  method HandleRemoveVcNotify(store: NotifStore, content: string, author: UserId, parse: string -> Option<uint64>)
    returns (reply: Reply, saved: bool)
    modifies store
    ensures ChannelArgument(content).None? ==>
              reply == Text(RemoveUsage) && !saved && store.channels == old(store.channels)
    ensures ChannelArgument(content).Some? && parse(ChannelArgument(content).value).None? ==>
              reply == Text(InvalidChannelId) && !saved && store.channels == old(store.channels)
    ensures ChannelArgument(content).Some? && parse(ChannelArgument(content).value).Some? ==>
              var id := parse(ChannelArgument(content).value).value;
              && (IndexOfChannel(old(store.channels), id).None? ==>
                    reply == Text(UnknownChannel) && !saved && store.channels == old(store.channels))
              && (IndexOfChannel(old(store.channels), id).Some? && author !in SubscribersOf(old(store.channels), id) ==>
                    reply == Text(NotSubscribed) && !saved && store.channels == old(store.channels))
              && (author in SubscribersOf(old(store.channels), id) ==>
                    reply == Text(Unsubscribed) && saved &&
                    Some(store.channels) == Unsubscribe(old(store.channels), id, author))
  {
    var channel := ChannelArgument(content);
    if channel.None? {
      return Text(RemoveUsage), false;
    }
    var channelId := parse(channel.value);
    if channelId.None? {
      return Text(InvalidChannelId), false;
    }
    var found := store.Find(channelId.value);
    if found.None? {
      return Text(UnknownChannel), false;
    }
    var removed := store.RemoveSubscriber(found.value, author);
    if !removed {
      return Text(NotSubscribed), false;
    }
    reply, saved := Text(Unsubscribed), true;
  }
}
