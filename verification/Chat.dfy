/** Channels and their members as the chat session hands them out (core/src/games/sc2/chat/session.rs). */
module Chat {
  import opened Common
  import Wire

  datatype ChatChannel = Public(id: nat) | Private(name: string) | Club(id: nat) | Party

  /** `name` still carries the character code the service appends. */
  datatype ChatUser = ChatUser(
    handle: nat, name: Option<string>, clanTag: Option<string>, avatar: Option<Wire.Portrait>, presence: string)
}
