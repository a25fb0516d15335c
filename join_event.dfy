/** The classifier `is_join_event`: does a voice-state transition count as joining a channel? */
module JoinEvent {
  import opened Types

  /** The part of a platform voice state the core looks at. */
  datatype VoiceState = VoiceState(userId: UserId, channelId: Option<ChannelId>)

  /** True when the transition from `oldState` to `newState` is a join. An absent old state,
      or an old state outside every channel, is a join whatever the new state is; otherwise
      leaving is not a join, and neither is staying in the same channel. */
  function IsJoinEvent(oldState: Option<VoiceState>, newState: VoiceState): (r: bool)
    ensures oldState.None? ==> r
    ensures oldState.Some? && oldState.value.channelId.None? ==> r
    ensures oldState.Some? && oldState.value.channelId.Some? && newState.channelId.None? ==> !r
    ensures oldState.Some? && oldState.value.channelId.Some? && newState.channelId.Some? ==>
              (r <==> oldState.value.channelId.value != newState.channelId.value)
  {
    match oldState
    case None => true
    case Some(o) =>
      match o.channelId
      case None => true
      case Some(oldChannel) =>
        match newState.channelId
        case None => false
        case Some(newChannel) => oldChannel != newChannel
  }

  /** A platform event that is not a join is exactly a move out of some channel into
      either no channel or the very same channel. */
  lemma NotJoinMeansLeaveOrStay(oldState: Option<VoiceState>, newState: VoiceState)
    ensures !IsJoinEvent(oldState, newState) <==>
              oldState.Some? && oldState.value.channelId.Some? &&
              (newState.channelId.None? || newState.channelId == oldState.value.channelId)
  {
  }
}
