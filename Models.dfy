/**
 * The wire envelope (`WebSocketMessage`) and the plain records it carries
 * (`Message`, `Server`, `Channel`, `Friend`, `DirectMessage`).
 *
 * Every C# property that may hold null is an `Option`; `Type` is a plain
 * string, so it can never be null, and its default is the empty string.
 */
module Models {
  import opened Wrappers

  /** An instant in time; `DateTime` values are abstract here. */
  datatype Instant = Instant(ticks: int)

  /** An untyped JSON payload (`object?` in the source): SDP offers and answers, ICE candidates. */
  datatype Blob = Blob(handle: nat)

  datatype Message = Message(
    messageId: string,
    content: string,
    username: string,
    timestamp: Instant,
    messageType: string,
    contextType: Option<string>,
    contextId: Option<string>)

  datatype Channel = Channel(
    channelId: string,
    serverId: string,
    name: string,
    channelType: string,
    activeUsers: seq<string>)

  datatype Server = Server(
    serverId: string,
    name: string,
    owner: string,
    members: seq<string>,
    channels: seq<Channel>,
    permissions: map<string, seq<string>>)

  datatype Friend = Friend(
    username: string,
    emojiAvatar: Option<string>,
    isOnline: bool,
    status: string)

  datatype DirectMessage = DirectMessage(
    dmId: string,
    participants: seq<string>,
    otherUser: string,
    lastMessage: Option<Message>,
    unreadCount: int)

  /** One envelope exchanged over the socket; field order follows the C# record. */
  datatype Envelope = Envelope(
    typ: string,
    username: Option<string>,
    password: Option<string>,
    inviteCode: Option<string>,
    content: Option<string>,
    name: Option<string>,
    serverId: Option<string>,
    channelId: Option<string>,
    channelType: Option<string>,
    friendUsername: Option<string>,
    dmId: Option<string>,
    targetUsername: Option<string>,
    target: Option<string>,
    muted: Option<bool>,
    offer: Option<Blob>,
    answer: Option<Blob>,
    candidate: Option<Blob>,
    message: Option<string>,
    timestamp: Option<string>,
    servers: Option<seq<Server>>,
    channels: Option<seq<Channel>>,
    friends: Option<seq<Friend>>,
    dms: Option<seq<DirectMessage>>,
    history: Option<seq<Message>>,
    code: Option<string>)

  /** The properties of the envelope, one per JSON member. */
  datatype Field =
    | Type | Username | Password | InviteCode | Content | Name | ServerId
    | ChannelId | ChannelType | FriendUsername | DmId | TargetUsername | Target
    | Muted | Offer | Answer | Candidate | MessageText | Timestamp | Servers
    | Channels | Friends | Dms | History | Code

  /**
   * The value of one property of an envelope, tagged by its declared C# type:
   * `string?`, `bool?`, `object?`, or one of the five `List<...>?` types.
   */
  datatype FieldValue =
    | Text(text: Option<string>)
    | Flag(flag: Option<bool>)
    | Opaque(payload: Option<Blob>)
    | ServerList(servers: Option<seq<Server>>)
    | ChannelList(channels: Option<seq<Channel>>)
    | FriendList(friends: Option<seq<Friend>>)
    | DmList(dms: Option<seq<DirectMessage>>)
    | MessageList(messages: Option<seq<Message>>)
  {
    /** Whether the property holds null. */
    predicate IsNull() {
      match this
      case Text(v) => v.None?
      case Flag(v) => v.None?
      case Opaque(v) => v.None?
      case ServerList(v) => v.None?
      case ChannelList(v) => v.None?
      case FriendList(v) => v.None?
      case DmList(v) => v.None?
      case MessageList(v) => v.None?
    }
  }

  /** Exactly the properties in `fs` hold a value; every other one is null. */
  ghost predicate HasExactly(e: Envelope, fs: set<Field>) {
    forall f :: !ValueOf(e, f).IsNull() <==> f in fs
  }

  /**
   * `new WebSocketMessage { Type = typ }`: the given type and every other
   * property at its default, null.
   */
  function Blank(typ: string): (e: Envelope)
    ensures e.typ == typ
    ensures HasExactly(e, {Type})
  {
    Envelope(typ, None, None, None, None, None, None, None, None, None, None,
             None, None, None, None, None, None, None, None, None, None, None,
             None, None, None)
  }

  /** `new WebSocketMessage()`: the parameterless constructor. */
  function Default(): (e: Envelope)
    ensures e.typ == "" && HasExactly(e, {Type})
  {
    Blank("")
  }

  /** The JSON member name each property is bound to by its `JsonPropertyName`. */
  function WireName(f: Field): (name: string)
    ensures FieldNamed(name) == Some(f)
  {
    match f
    case Type => "type"
    case Username => "username"
    case Password => "password"
    case InviteCode => "invite_code"
    case Content => "content"
    case Name => "name"
    case ServerId => "server_id"
    case ChannelId => "channel_id"
    case ChannelType => "channel_type"
    case FriendUsername => "friend_username"
    case DmId => "dm_id"
    case TargetUsername => "target_username"
    case Target => "target"
    case Muted => "muted"
    case Offer => "offer"
    case Answer => "answer"
    case Candidate => "candidate"
    case MessageText => "message"
    case Timestamp => "timestamp"
    case Servers => "servers"
    case Channels => "channels"
    case Friends => "friends"
    case Dms => "dms"
    case History => "history"
    case Code => "code"
  }

  /** The property a JSON member name binds to, if any: the inverse of `WireName`. */
  function FieldNamed(name: string): Option<Field> {
    if name == "type" then Some(Type)
    else if name == "username" then Some(Username)
    else if name == "password" then Some(Password)
    else if name == "invite_code" then Some(InviteCode)
    else if name == "content" then Some(Content)
    else if name == "name" then Some(Name)
    else if name == "server_id" then Some(ServerId)
    else if name == "channel_id" then Some(ChannelId)
    else if name == "channel_type" then Some(ChannelType)
    else if name == "friend_username" then Some(FriendUsername)
    else if name == "dm_id" then Some(DmId)
    else if name == "target_username" then Some(TargetUsername)
    else if name == "target" then Some(Target)
    else if name == "muted" then Some(Muted)
    else if name == "offer" then Some(Offer)
    else if name == "answer" then Some(Answer)
    else if name == "candidate" then Some(Candidate)
    else if name == "message" then Some(MessageText)
    else if name == "timestamp" then Some(Timestamp)
    else if name == "servers" then Some(Servers)
    else if name == "channels" then Some(Channels)
    else if name == "friends" then Some(Friends)
    else if name == "dms" then Some(Dms)
    else if name == "history" then Some(History)
    else if name == "code" then Some(Code)
    else None
  }

  /** No two properties share a JSON member name. */
  lemma WireNameInjective(f: Field, g: Field)
    requires WireName(f) == WireName(g)
    ensures f == g
  {
    assert Some(f) == FieldNamed(WireName(f)) == FieldNamed(WireName(g)) == Some(g);
  }

  /** The property `f` of `e`, read through its declared type; `Type` is a string that is never null. */
  function ValueOf(e: Envelope, f: Field): FieldValue {
    match f
    case Type => Text(Some(e.typ))
    case Username => Text(e.username)
    case Password => Text(e.password)
    case InviteCode => Text(e.inviteCode)
    case Content => Text(e.content)
    case Name => Text(e.name)
    case ServerId => Text(e.serverId)
    case ChannelId => Text(e.channelId)
    case ChannelType => Text(e.channelType)
    case FriendUsername => Text(e.friendUsername)
    case DmId => Text(e.dmId)
    case TargetUsername => Text(e.targetUsername)
    case Target => Text(e.target)
    case Muted => Flag(e.muted)
    case Offer => Opaque(e.offer)
    case Answer => Opaque(e.answer)
    case Candidate => Opaque(e.candidate)
    case MessageText => Text(e.message)
    case Timestamp => Text(e.timestamp)
    case Servers => ServerList(e.servers)
    case Channels => ChannelList(e.channels)
    case Friends => FriendList(e.friends)
    case Dms => DmList(e.dms)
    case History => MessageList(e.history)
    case Code => Text(e.code)
  }

  /**
   * In every envelope, `Muted` is the only boolean property, `Offer`,
   * `Answer`, `Candidate` are exactly the untyped ones, and `Type` is a
   * string that is never null.
   */
  lemma KindsOfFields(e: Envelope, f: Field)
    ensures ValueOf(e, f).Flag? <==> f == Muted
    ensures ValueOf(e, f).Opaque? <==> f in {Offer, Answer, Candidate}
    ensures f == Type ==> ValueOf(e, f) == Text(Some(e.typ)) && !ValueOf(e, f).IsNull()
  {
  }

  /** The result of `JsonSerializer.Deserialize`: an envelope, a JSON `null`, or an exception. */
  datatype Decoded = Decoded(env: Envelope) | DecodedNull | Malformed

  /** `char.IsWhiteSpace`: the Unicode space, line and paragraph separators and the controls U+0009-U+000D, U+0085. */
  predicate IsWhiteSpace(c: char) {
    ('\U{0009}' <= c <= '\U{000D}') || c == '\U{0020}' || c == '\U{0085}' || c == '\U{00A0}'
    || c == '\U{1680}' || ('\U{2000}' <= c <= '\U{200A}') || c == '\U{2028}' || c == '\U{2029}'
    || c == '\U{202F}' || c == '\U{205F}' || c == '\U{3000}'
  }

  /** `string.IsNullOrWhiteSpace` on a string that is not null. */
  predicate IsBlank(s: string) {
    forall i :: 0 <= i < |s| ==> IsWhiteSpace(s[i])
  }

  /** `string.IsNullOrEmpty` on a nullable string. */
  predicate IsNullOrEmpty(s: Option<string>) {
    s.None? || s.value == ""
  }
}
