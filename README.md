# problem-child: join notifications, modelled in Dafny

problem-child is a chat bot. Users send it `!add-vc-notify <channel id>` in a direct message to
be told when someone joins that voice channel, and `!remove-vc-notify <channel id>` to stop.
The bot keeps the subscriptions in one flat, ordered list of `NotifChannel` records. Each record
is a channel id plus an ordered list of subscribed user ids, and that list may hold a user more
than once. When a voice state changes, the bot decides whether the change is a join. If it is,
it sends a direct message to each subscriber of the joined channel who passes its skip rules.

This project models the decision logic of `src/commands.rs`, with the record type of
`src/model.rs`:

- `types.dfy` (`Types`): `uint64` ids, `Option`, the `NotifChannel` record, and the first-occurrence search `IndexOf`.
- `join_event.dfy` (`JoinEvent`): `is_join_event`, a total function over the old and new voice states.
- `arguments.dfy` (`Arguments`): `get_channel_argument_from_msg`, together with the `str::trim`
  (Unicode White_Space) it relies on.
- `store.dfy` (`Store`): the store as a class `NotifStore` holding `channels: seq<NotifChannel>`.
  Its methods are `Find` (`get_notif_channel`), `GetOrCreate` (`get_or_create_notif_channel`),
  `PushSubscriber` (`subscribed_users.push`) and `RemoveSubscriber` (`position` + `swap_remove`).
  Beside the class are pure functions `Subscribe` and `Unsubscribe`, which state what a whole
  command does to the list; the lemmas are proved about them.
- `notifications.dfy` (`Notifications`): the filtering loop and message text of `send_notifications`.
  `SendNotifications` is that loop, proved equal to the function `JoinNotifications`.
- `commands.dfy` (`Commands`): the two command handlers. Each returns its reply and whether it saved the store.
- `handler.dfy` (`Handler`): the `message` and `voice_state_update` callbacks, which route a
  message and classify a voice-state change before fanning out.

Platform lookups become inputs:
- `to_channel` + `channel.guild()` become an optional `ChannelView`.
- The member cache becomes an optional member list; a failed lookup counts as empty.
- The guild cache becomes an optional `GuildView` carrying the guild name and presences.
- Every `to_user` call becomes a map `users` from user id to name. An id missing from it is a
  failed fetch: the joiner's name is then "Someone", and a recipient is skipped.
- `str::parse::<u64>` becomes a function parameter `parse: string -> Option<uint64>`.

The model follows this code. It has no guild records, AFK channels, admins, "busy in another
channel" rule or summary for admins; accounts of the bot that describe those belong to another
revision of it. How this revision behaves, in the points where it is easy to misread:
- `is_join_event` returns true when the old state is absent, and also when the old state has
  no channel (src/commands.rs:99-107), whatever the new state is. Even then a new state without
  a channel sends nothing, because `send_notifications` returns early
  (`Handler.OnVoiceStateUpdate`).
- Moving between two different channels is a join (src/commands.rs:114); staying in the same
  channel is not.
- The add command appends the author with no duplicate check, so a subscriber list may hold a
  user several times, and that user is then sent to as many times.
- A subscriber is also skipped when fetching that user fails (src/commands.rs:201-204).

`get_channel_argument_from_msg` finds the space in the trimmed content but slices the untrimmed
content. So the result starts as many characters early as the content has leading whitespace
(one for `" !a 1"`, `Arguments.LeadingWhitespaceShiftsArgument`). A routed command always starts with `!`, so the
handlers never meet this case (`Handler.RoutedArgumentFollowsFirstSpace`).

## Model

| member | source | states |
|---|---|---|
| `JoinEvent.IsJoinEvent` | src/commands.rs:98-115 | An absent old state, or one without a channel, is a join whatever the new state is. Otherwise a new state without a channel is not a join, and two channels give a join exactly when they differ. |
| `JoinEvent.NotJoinMeansLeaveOrStay` | src/commands.rs:98-115 | A change is not a join exactly when the user was in a channel and now is in no channel or in the same one. |
| `Arguments.Trim` | src/commands.rs:318 | `str::trim`: the result is the contiguous middle of the content, and neither of its ends is whitespace. Everything cut off is whitespace. |
| `Arguments.IsWhitespace` | src/commands.rs:318 | `char::is_whitespace`, the set `trim` strips: the Unicode White_Space characters. |
| `Arguments.ChannelArgument` | src/commands.rs:315-321 | None exactly when the trimmed content has no space. Otherwise the result is the original content from one past the trimmed content's first space, that index is in bounds, and the result is a proper suffix of the content. |
| `Arguments.ArgumentAfterFirstSpace` | src/commands.rs:315-321 | For content not starting with whitespace, the argument is everything after the first space when non-whitespace follows it. |
| `Arguments.NoSpaceNoArgument` | src/commands.rs:315-321 | Content without any space has no argument. |
| `Arguments.AddCommandExample` | src/commands.rs:315-321 | `"!add-vc-notify 123"` gives `"123"`. |
| `Arguments.TrailingSpaceExample` | src/commands.rs:315-321 | `"!add-vc-notify "` gives none: the only space is trimmed away. |
| `Arguments.LeadingWhitespaceShiftsArgument` | src/commands.rs:315-321 | `" !a 1"` gives `" 1"`: the index comes from the trimmed content but is applied to the untrimmed one, so the result starts one character early per leading whitespace character. |
| `Store.IndexOfChannel` | src/commands.rs:370-377 | The index of the first record with the id, or none exactly when no record has it. |
| `Types.IndexOf` | src/commands.rs:283 | `position` (and `find(' ')` at line 319): the index of the first occurrence, or none exactly when the element is absent. |
| `Store.SwapRemove` | src/commands.rs:289 | `swap_remove`: one element shorter, and the former last element fills the freed slot. All other positions are kept, and the multiset loses exactly one copy of the removed element. |
| `Store.Subscribe` | src/commands.rs:241-243 | What an add does to the store: find-or-create the record, then append the author. Its properties are the `Subscribe*` lemmas. |
| `Store.Unsubscribe` | src/commands.rs:275-289 | What a remove does to the store: none for an unknown channel or an absent user, otherwise the first occurrence swap-removed. Its properties are the `Unsubscribe*` lemmas. |
| `Store.SubscribeAppends` | src/commands.rs:241-243 | After an add, the channel's list is the old list followed by the author, with no duplicate check. The author's count rises by one. |
| `Store.SubscribeKeepsOthers` | src/commands.rs:374-386 | An add changes only the first matching record. When none exists, it appends one `{id, [author]}` at the end. All ids and every other record, and every other channel's subscribers, are unchanged. |
| `Store.SubscribeTwice` | src/commands.rs:241-243 | Two adds leave the author in the list twice. |
| `Store.SubscribeKeepsUniqueIds` | src/commands.rs:374-386 | If channel ids are unique before an add, they are unique after it. |
| `Store.UnsubscribeFailsWhenAbsent` | src/commands.rs:275-287 | A removal fails exactly when the user is not among the channel's subscribers, including when the channel is unknown. |
| `Store.UnsubscribeSwapRemoves` | src/commands.rs:283-289 | A removal swap-removes the first occurrence. The list drops by one, the former last element fills the slot, other positions are kept, and exactly one copy of the user is gone. |
| `Store.UnsubscribeKeepsOthers` | src/commands.rs:283-289 | A removal keeps the store's length, its ids, every other record and every other channel's subscribers, and it keeps ids unique. |
| `Store.UnsubscribedIffSingleCopy` | src/commands.rs:283-289 | After a removal the user is gone from the list exactly when they were recorded once. |
| `Store.NotifStore.constructor` | src/commands.rs:18-22 | The store starts with the records loaded at startup. |
| `Store.NotifStore.Find` | src/commands.rs:370-372 | `get_notif_channel` returns the first record with the id, or none, and leaves the store as it is. |
| `Store.NotifStore.GetOrCreate` | src/commands.rs:374-386 | If a record with the id exists, the store is untouched and the first match's index is returned. Otherwise exactly one empty record is pushed and its index returned. Unique ids stay unique. |
| `Store.NotifStore.PushSubscriber` | src/commands.rs:243 | The author is appended to that record's list, and nothing else changes. |
| `Store.NotifStore.RemoveSubscriber` | src/commands.rs:283-289 | Reports whether the user was in the record's list. If so, the first occurrence is swap-removed; otherwise nothing changes. |
| `Store.Position` | src/commands.rs:283 | The `position` loop returns the first index of the user, or none. |
| `Notifications.Reachable` | src/commands.rs:191-198 | Online and Idle are reachable; DoNotDisturb, Invisible, Offline and any other status are not. |
| `Notifications.ShouldNotify` | src/commands.rs:176-204 | The skip rules: not the joiner, not in the channel, a presence entry with a reachable status, and a fetchable user. |
| `Notifications.Recipients` | src/commands.rs:173-204 | The subscribers passing the skip rules, in list order. Its properties are the `Recipients*` lemmas. |
| `Notifications.JoinerName` | src/commands.rs:165-169 | The joiner's fetched name, or `"Someone"` when the fetch fails. |
| `Notifications.JoinMessage` | src/commands.rs:209-212 | The text `"{joiner} joined {channel} on {guild}!"`. |
| `Notifications.RecipientsCount` | src/commands.rs:173-215 | Each user is sent to as many times as they are subscribed if they pass the skip rules, and never otherwise. |
| `Notifications.RecipientsMembership` | src/commands.rs:173-215 | A user is sent to exactly when subscribed and not the joiner, not in the channel, with a presence entry whose status is Online or Idle, and fetchable. |
| `Notifications.RecipientsEligible` | src/commands.rs:173-215 | Every recipient is a subscriber who passes every skip rule. |
| `Notifications.RecipientsAppend` | src/commands.rs:173 | The filter distributes over concatenation, so recipients keep the subscribers' list order. |
| `Notifications.Addressed` | src/commands.rs:206-213 | One message with the same text goes to each recipient, in order. |
| `Notifications.JoinNotifications` | src/commands.rs:130-216 | Nothing is sent if the state has no channel, the channel has no record, or the channel or guild lookup fails. Otherwise every message carries `"{joiner} joined {channel} on {guild}!"` and goes to a subscriber who passes the skip rules. |
| `Notifications.EveryEligibleSubscriberIsNotified` | src/commands.rs:165-215 | Every subscriber passing the skip rules receives the join text. |
| `Notifications.FanOutExample` | src/commands.rs:165-212 | With subscribers in the channel, without a presence entry, Do Not Disturb, and the joiner, only the online outsider is told, as `"Someone joined Lounge on Home!"` when the joiner cannot be fetched. |
| `Notifications.SendNotifications` | src/commands.rs:130-216 | The loop with its `continue` skips sends exactly `JoinNotifications`. |
| `Commands.HandleAddVcNotify` | src/commands.rs:218-250 | With no argument, the author gets the channel list; with an unparsable one, a rejection. Neither changes or saves the store. Otherwise the store becomes `Subscribe(old, id, author)`, the author is told, and the store is saved. |
| `Commands.HandleRemoveVcNotify` | src/commands.rs:252-301 | A missing or unparsable argument, an unknown channel and an absent user each get their own rejection, with no change and no save. Otherwise the store becomes `Unsubscribe(old, id, author)`, the author is told, and the store is saved. |
| `Handler.Route` | src/commands.rs:38-47 | The add command exactly when the content starts with `!add-vc-notify`. The remove command exactly when it starts with `!remove-vc-notify` and not with the add prefix. Help exactly when neither prefix matches. A routed command starts with `!`. |
| `Handler.RoutedArgumentFollowsFirstSpace` | src/commands.rs:38-41 | For a routed command, the argument is the text after the first space when non-whitespace follows it. |
| `Handler.OnMessage` | src/commands.rs:27-48 | Own and non-private messages are ignored, and help changes nothing. A routed add saves exactly when its channel id parses, then the store is `Subscribe` of that id and the reply is the subscribe text. A routed remove saves exactly when the id parses and the author is subscribed, then the store is `Unsubscribe` and the reply is the unsubscribe text. Each failure gets its own reply and leaves the store unchanged. |
| `Handler.OnVoiceStateUpdate` | src/commands.rs:50-68 | A change that is not a join sends nothing. A join sends `JoinNotifications`, and a new state without a channel never sends anything. |

## Left out

- Delivery of direct messages (`send_msg`, src/commands.rs:303-313) is left out because it is network I/O. A sent message is a `Dm` value, and a failed delivery is only logged, so it changes nothing.
- `to_channel`, `to_user`, `channel.guild()`, `guild_channel.members` and `guild.presences` (src/commands.rs:144-171, 201-204) are platform and library calls. Their results are inputs.
- `send_list_of_common_channels` and `get_list_of_common_channels` (src/commands.rs:323-368) are network enumeration and reply formatting. The reply is the constant `CommonChannelList`.
- `handle_help` (src/commands.rs:117-128) is only text. It is the answer `HelpText`.
- The logging-only callbacks (`cache_ready`, `guild_unavailable`, `ready`, `resume`, `user_update`, `unknown`, src/commands.rs:70-95) do nothing to model. Neither do the `println!` calls.
- The lock `ctx.data.write()` (src/commands.rs:136, 219, 253) is concurrency. Every handler is modelled as running alone with exclusive access to the store.
- `str::parse::<u64>` (src/commands.rs:233, 267) is an abstract partial function that the caller supplies.
- Saving (`storage::save_notif_data`) and loading are file and JSON I/O. Their I/O branching includes the rule that a missing file means an empty list. A handler returns `saved` to say whether it asked for a save, and a save failure is only logged.
- Process startup (src/main.rs) is left out; it is not part of this model.
- Arguments.ChannelArgument: strings are character sequences, so Rust's byte indices and char-boundary panics are not modelled. This matches the code for ASCII content.
