/** The optional value used wherever the backend has `Optional[...]` or `None`. */
module Wrappers {
  datatype Option<+T> = None | Some(value: T)
}

/**
 * The record and enum types shared by the chat backend (Models.py): users,
 * channels, memberships and messages, the two string-valued enums, and the
 * factories and field defaults that build them.
 */
module Models {
  import opened Wrappers

  /** A user's presence status; its wire form is a lower-case string. */
  datatype UserStatus = Online | Offline | Away | DoNotDisturb | Invisible

  /** The string each status is stored and sent as. */
  function StatusWire(s: UserStatus): string
  {
    match s
    case Online => "online"
    case Offline => "offline"
    case Away => "away"
    case DoNotDisturb => "do_not_disturb"
    case Invisible => "invisible"
  }

  /** `UserStatus(w)`: the status whose wire string is `w`, if any. */
  function ParseStatus(w: string): Option<UserStatus>
  {
    if w == "online" then Some(Online)
    else if w == "offline" then Some(Offline)
    else if w == "away" then Some(Away)
    else if w == "do_not_disturb" then Some(DoNotDisturb)
    else if w == "invisible" then Some(Invisible)
    else None
  }

  /** Parsing the wire string of a status gives that status back. */
  lemma StatusWireRoundTrip(s: UserStatus)
    ensures ParseStatus(StatusWire(s)) == Some(s)
  {
  }

  /** A string that parses as a status is exactly that status's wire string. */
  lemma ParseStatusExact(w: string, s: UserStatus)
    requires ParseStatus(w) == Some(s)
    ensures StatusWire(s) == w
  {
  }

  /** The wire strings are pairwise distinct. */
  lemma StatusWireInjective(a: UserStatus, b: UserStatus)
    requires StatusWire(a) == StatusWire(b)
    ensures a == b
  {
    StatusWireRoundTrip(a);
    StatusWireRoundTrip(b);
  }

  /** The kind of a channel; a group channel is stored as "conversation". */
  datatype ChannelType = Group | Thread | Dm

  /** The string each channel type is stored and sent as. */
  function ChannelTypeWire(t: ChannelType): string
  {
    match t
    case Group => "conversation"
    case Thread => "thread"
    case Dm => "dm"
  }

  /** `ChannelType(w)`: the channel type whose wire string is `w`, if any. */
  function ParseChannelType(w: string): Option<ChannelType>
  {
    if w == "conversation" then Some(Group)
    else if w == "thread" then Some(Thread)
    else if w == "dm" then Some(Dm)
    else None
  }

  /** Parsing the wire string of a channel type gives that type back. */
  lemma ChannelTypeWireRoundTrip(t: ChannelType)
    ensures ParseChannelType(ChannelTypeWire(t)) == Some(t)
  {
  }

  /** A string that parses as a channel type is exactly that type's wire string. */
  lemma ParseChannelTypeExact(w: string, t: ChannelType)
    requires ParseChannelType(w) == Some(t)
    ensures ChannelTypeWire(t) == w
  {
  }

  datatype User = User(
    id: string,
    createdAt: string,
    username: string,
    password: string,
    token: string,
    status: UserStatus,
    profilePicture: string)

  /**
   * `User.create`: a new user with no session token, shown as offline. The
   * id (a fresh UUID) and the creation time (the clock in ISO format) come
   * from outside and are parameters here.
   */
  function CreateUser(id: string, createdAt: string, username: string, password: string,
                      profilePicture: string): (u: User)
    ensures u.token == "" && u.status == Offline
    ensures u.username == username && u.password == password
    ensures u.profilePicture == profilePicture
    ensures u.id == id && u.createdAt == createdAt
  {
    User(id, createdAt, username, password, "", Offline, profilePicture)
  }

  datatype Channel = Channel(
    id: string,
    createdAt: string,
    name: string,
    channelType: ChannelType,
    description: string,
    membersCount: int)

  /** A channel built without `members_count` has a member count of 0. */
  function NewChannel(id: string, createdAt: string, name: string, channelType: ChannelType,
                      description: string): (c: Channel)
    ensures c.membersCount == 0
    ensures c.id == id && c.createdAt == createdAt && c.name == name
    ensures c.channelType == channelType && c.description == description
  {
    Channel(id, createdAt, name, channelType, description, 0)
  }

  datatype ChannelMembership = ChannelMembership(userId: string, channelId: string)

  datatype Message = Message(
    id: string,
    sent: string,
    text: string,
    sender: User,
    content: string,
    channelId: string,
    reactions: map<string, int>,
    hasThread: bool,
    hasImage: bool,
    thread: Option<Channel>,
    image: Option<string>)

  /**
   * A message built from its required fields only: no reactions, no thread
   * and no image.
   */
  function NewMessage(id: string, sent: string, text: string, sender: User, content: string,
                      channelId: string): (m: Message)
    ensures m.reactions == map[]
    ensures !m.hasThread && !m.hasImage && m.thread == None && m.image == None
    ensures m.id == id && m.sent == sent && m.text == text && m.sender == sender
    ensures m.content == content && m.channelId == channelId
  {
    Message(id, sent, text, sender, content, channelId, map[], false, false, None, None)
  }
}
