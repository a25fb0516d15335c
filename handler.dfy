/** The `EventHandler` callbacks that make decisions: `message`, which routes a direct message
    to a command, and `voice_state_update`, which classifies a transition and fans out. */
module Handler {
  import opened Types
  import opened Arguments
  import opened Store
  import opened JoinEvent
  import opened Notifications
  import opened Commands

  /** The three ways `message` dispatches a direct message. */
  datatype Command = AddVcNotify | RemoveVcNotify | Help

  /** The command a message's content selects, by the prefix tests in the source's order;
      anything else, known or not, gets the help text. */
  function Route(content: string): (c: Command)
    ensures c != Help ==> content != [] && content[0] == '!'
    ensures c == AddVcNotify <==> "!add-vc-notify" <= content
    ensures c == RemoveVcNotify <==> !("!add-vc-notify" <= content) && "!remove-vc-notify" <= content
    ensures c == Help <==> !("!add-vc-notify" <= content) && !("!remove-vc-notify" <= content)
  {
    if "!add-vc-notify" <= content then AddVcNotify
    else if "!remove-vc-notify" <= content then RemoveVcNotify
    else Help
  }

  /** A routed command never starts with whitespace, so its argument is exactly the text
      after its first space whenever something other than whitespace follows that space. */
  lemma RoutedArgumentFollowsFirstSpace(content: string, k: nat)
    requires Route(content) != Help
    requires k < |content| && content[k] == ' ' && ' ' !in content[..k]
    requires exists j :: k < j < |content| && !IsWhitespace(content[j])
    ensures ChannelArgument(content) == Some(content[k + 1..])
  {
    ArgumentAfterFirstSpace(content, k);
  }

  /** The channel id a command's content names: its argument, when `parse` accepts it. */
  function CommandChannel(content: string, parse: string -> Option<uint64>): Option<ChannelId> {
    match ChannelArgument(content)
    case None => None
    case Some(arg) => parse(arg)
  }

  /** What `message` does with a message: ignores it, answers with a command's reply, or
      sends the help text (whose wording is not modelled). */
  datatype Answer = Ignored | Answered(reply: Reply) | HelpText

  /** `message`: the bot's own messages and messages outside a direct conversation are
      ignored; otherwise the content is routed. `saved` tells whether the store was saved,
      which happens only after a command changed it. */
  method OnMessage(store: NotifStore, isOwn: bool, isPrivate: bool, content: string, author: UserId,
                   parse: string -> Option<uint64>) returns (answer: Answer, saved: bool)
    modifies store
    ensures isOwn || !isPrivate ==> answer == Ignored && !saved && store.channels == old(store.channels)
    ensures !isOwn && isPrivate && Route(content) == Help ==>
              answer == HelpText && !saved && store.channels == old(store.channels)
    ensures !isOwn && isPrivate && Route(content) != Help ==> answer.Answered?
    ensures saved ==> !isOwn && isPrivate && Route(content) != Help && CommandChannel(content, parse).Some?
    ensures !saved ==> store.channels == old(store.channels)
    ensures saved && Route(content) == AddVcNotify ==>
              store.channels == Subscribe(old(store.channels), CommandChannel(content, parse).value, author)
    ensures saved && Route(content) == RemoveVcNotify ==>
              Some(store.channels) == Unsubscribe(old(store.channels), CommandChannel(content, parse).value, author)
    ensures !isOwn && isPrivate && Route(content) == AddVcNotify ==>
              && (saved <==> CommandChannel(content, parse).Some?)
              && (saved ==> answer == Answered(Text(Subscribed)))
              && (ChannelArgument(content).None? ==> answer == Answered(CommonChannelList))
              && (ChannelArgument(content).Some? && !saved ==> answer == Answered(Text(InvalidChannelId)))
    ensures !isOwn && isPrivate && Route(content) == RemoveVcNotify ==>
              && (saved <==> CommandChannel(content, parse).Some? &&
                             author in SubscribersOf(old(store.channels), CommandChannel(content, parse).value))
              && (saved ==> answer == Answered(Text(Unsubscribed)))
              && (ChannelArgument(content).None? ==> answer == Answered(Text(RemoveUsage)))
              && (ChannelArgument(content).Some? && CommandChannel(content, parse).None? ==>
                    answer == Answered(Text(InvalidChannelId)))
              && (CommandChannel(content, parse).Some? &&
                  IndexOfChannel(old(store.channels), CommandChannel(content, parse).value).None? ==>
                    answer == Answered(Text(UnknownChannel)))
              && (CommandChannel(content, parse).Some? &&
                  IndexOfChannel(old(store.channels), CommandChannel(content, parse).value).Some? && !saved ==>
                    answer == Answered(Text(NotSubscribed)))
  {
    if isOwn || !isPrivate {
      return Ignored, false;
    }
    match Route(content)
    case AddVcNotify =>
      var reply;
      reply, saved := HandleAddVcNotify(store, content, author, parse);
      answer := Answered(reply);
    case RemoveVcNotify =>
      var reply;
      reply, saved := HandleRemoveVcNotify(store, content, author, parse);
      answer := Answered(reply);
    case Help =>
      answer, saved := HelpText, false;
  }

  /** `voice_state_update`: fan out only for a join. Whatever the old state, a new state
      outside every channel sends nothing. */
  method OnVoiceStateUpdate(store: NotifStore, oldState: Option<VoiceState>, newState: VoiceState,
                            channel: Option<ChannelView>, users: map<UserId, string>) returns (sent: seq<Dm>)
    ensures !IsJoinEvent(oldState, newState) ==> sent == []
    ensures IsJoinEvent(oldState, newState) ==> sent == JoinNotifications(store.channels, newState, channel, users)
    ensures newState.channelId.None? ==> sent == []
  {
    if !IsJoinEvent(oldState, newState) {
      return [];
    }
    sent := SendNotifications(store, newState, channel, users);
  }
}
