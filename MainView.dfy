/**
 * `MainViewModel`: the five ordered collections shown by the main window,
 * the selections, the chat input and the voice flag; the reducer that
 * applies each inbound envelope to the collections; and the user intents,
 * each of which sends at most one envelope.
 *
 * `SetProperty` reports a change when the new value differs from the old
 * one. Clock readings and timestamp parsing are parameters (`now`, `parse`),
 * as are the REST results used at start-up and whether audio devices start.
 */
module MainView {
  import opened Wrappers
  import opened Models
  import opened Sockets
  import opened Auth
  import opened Voice

  /** The contents of the five observable collections. */
  datatype Collections = Collections(
    messages: seq<Message>,
    servers: seq<Server>,
    channels: seq<Channel>,
    friends: seq<Friend>,
    dms: seq<DirectMessage>)

  const NewServerName: string := "New Server"

  /** The envelope types the reducer has a case for. */
  const HandledTypes: set<string> :=
    {"message", "history", "server_list", "channel_list", "friends_list", "dm_list", "system"}

  /** A list payload, or nothing when it is null. */
  function OrEmpty<T>(items: Option<seq<T>>): seq<T> {
    if items.Some? then items.value else []
  }

  /** The time of a chat message: its `timestamp` when that parses, the current time otherwise. */
  function Stamp(timestamp: Option<string>, parse: string -> Option<Instant>, now: Instant): Instant {
    if timestamp.Some? && parse(timestamp.value).Some? then parse(timestamp.value).value else now
  }

  function ChatMessage(content: string, username: string, at: Instant): Message {
    Message("", content, username, at, "message", None, None)
  }

  function SystemMessage(content: string, at: Instant): Message {
    Message("", content, "System", at, "system", None, None)
  }

  /**
   * The reducer: the collections after one inbound envelope. Each listing
   * type replaces its own collection only; the three message types touch
   * only the messages; any other type changes nothing.
   */
  function Reduce(s: Collections, env: Envelope, parse: string -> Option<Instant>, now: Instant): (r: Collections)
    ensures env.typ !in HandledTypes ==> r == s
    ensures r.servers != s.servers ==> env.typ == "server_list"
    ensures r.channels != s.channels ==> env.typ == "channel_list"
    ensures r.friends != s.friends ==> env.typ == "friends_list"
    ensures r.dms != s.dms ==> env.typ == "dm_list"
    ensures r.messages != s.messages ==> env.typ in {"message", "history", "system"}
    ensures env.typ == "server_list" ==> r.servers == OrEmpty(env.servers)
    ensures env.typ == "channel_list" ==> r.channels == OrEmpty(env.channels)
    ensures env.typ == "friends_list" ==> r.friends == OrEmpty(env.friends)
    ensures env.typ == "dm_list" ==> r.dms == OrEmpty(env.dms)
  {
    if env.typ == "message" then
      if !IsNullOrEmpty(env.content) && !IsNullOrEmpty(env.username) then
        s.(messages := s.messages + [ChatMessage(env.content.value, env.username.value, Stamp(env.timestamp, parse, now))])
      else s
    else if env.typ == "history" then s.(messages := OrEmpty(env.history))
    else if env.typ == "server_list" then s.(servers := OrEmpty(env.servers))
    else if env.typ == "channel_list" then s.(channels := OrEmpty(env.channels))
    else if env.typ == "friends_list" then s.(friends := OrEmpty(env.friends))
    else if env.typ == "dm_list" then s.(dms := OrEmpty(env.dms))
    else if env.typ == "system" then
      if !IsNullOrEmpty(env.content) then s.(messages := s.messages + [SystemMessage(env.content.value, now)])
      else s
    else s
  }

  /** A chat envelope appends exactly one message, with its content and sender, when both are non-empty; otherwise nothing changes. */
  lemma ChatEnvelopeAppends(s: Collections, env: Envelope, parse: string -> Option<Instant>, now: Instant)
    requires env.typ == "message"
    ensures var r := Reduce(s, env, parse, now);
      if !IsNullOrEmpty(env.content) && !IsNullOrEmpty(env.username) then
        && |r.messages| == |s.messages| + 1 && r.messages[..|s.messages|] == s.messages
        && r.messages[|s.messages|].content == env.content.value
        && r.messages[|s.messages|].username == env.username.value
        && r.messages[|s.messages|].messageType == "message"
        && r.messages[|s.messages|].timestamp == Stamp(env.timestamp, parse, now)
        && r.(messages := s.messages) == s
      else r == s
  {
  }

  /** A history envelope makes the messages exactly its records, in order, or none when it carries none. */
  lemma HistoryReplacesMessages(s: Collections, env: Envelope, parse: string -> Option<Instant>, now: Instant)
    requires env.typ == "history"
    ensures var r := Reduce(s, env, parse, now);
      && r.messages == OrEmpty(env.history)
      && (env.history.None? ==> r.messages == [])
      && r.(messages := s.messages) == s
  {
  }

  /** A system envelope with content appends one message from "System" of type "system"; without content nothing changes. */
  lemma SystemEnvelopeAppends(s: Collections, env: Envelope, parse: string -> Option<Instant>, now: Instant)
    requires env.typ == "system"
    ensures var r := Reduce(s, env, parse, now);
      if !IsNullOrEmpty(env.content) then
        && r.messages == s.messages + [SystemMessage(env.content.value, now)]
        && r.messages[|s.messages|].username == "System" && r.messages[|s.messages|].messageType == "system"
        && r.(messages := s.messages) == s
      else r == s
  {
  }

  /** Applying the same envelope twice is applying it once, for every envelope that replaces a collection. */
  lemma ReplacingIsIdempotent(s: Collections, env: Envelope, parse: string -> Option<Instant>, now: Instant)
    requires env.typ in {"history", "server_list", "channel_list", "friends_list", "dm_list"}
    ensures Reduce(Reduce(s, env, parse, now), env, parse, now) == Reduce(s, env, parse, now)
  {
  }

  /** One inbound envelope and the time at which it was handled. */
  datatype Inbound = Inbound(env: Envelope, now: Instant)

  /** The collections after a run of inbound envelopes, handled in order. */
  function ReduceAll(s: Collections, ins: seq<Inbound>, parse: string -> Option<Instant>): Collections
    decreases |ins|
  {
    if ins == [] then s
    else
      var last := ins[|ins| - 1];
      Reduce(ReduceAll(s, ins[..|ins| - 1], parse), last.env, parse, last.now)
  }

  /** The last envelope of the given type in a run, if any. */
  function Latest(ins: seq<Inbound>, typ: string): Option<Envelope>
    decreases |ins|
  {
    if ins == [] then None
    else if ins[|ins| - 1].env.typ == typ then Some(ins[|ins| - 1].env)
    else Latest(ins[..|ins| - 1], typ)
  }

  /** The listing shown for one type after a run: the latest payload of that type, or the starting one if none arrived. */
  function Listed<T>(start: seq<T>, latest: Option<Envelope>, payload: Envelope -> Option<seq<T>>): seq<T> {
    if latest.Some? then OrEmpty(payload(latest.value)) else start
  }

  /**
   * Whatever else arrives in between, each listing collection always shows
   * the payload of the latest envelope of its own type.
   */
  lemma {:induction false} ListingsTrackLatest(s: Collections, ins: seq<Inbound>, parse: string -> Option<Instant>)
    ensures var r := ReduceAll(s, ins, parse);
      && r.servers == Listed(s.servers, Latest(ins, "server_list"), (e: Envelope) => e.servers)
      && r.channels == Listed(s.channels, Latest(ins, "channel_list"), (e: Envelope) => e.channels)
      && r.friends == Listed(s.friends, Latest(ins, "friends_list"), (e: Envelope) => e.friends)
      && r.dms == Listed(s.dms, Latest(ins, "dm_list"), (e: Envelope) => e.dms)
  {
    if ins != [] {
      ListingsTrackLatest(s, ins[..|ins| - 1], parse);
    }
  }

  /** `message` with the chat input as content. */
  function ChatEnvelope(content: string): (e: Envelope)
    ensures e.typ == "message" && HasExactly(e, {Type, Content}) && e.content == Some(content)
  {
    Blank("message").(content := Some(content))
  }

  function SwitchServerEnvelope(serverId: string): (e: Envelope)
    ensures e.typ == "switch_server" && HasExactly(e, {Type, ServerId}) && e.serverId == Some(serverId)
  {
    Blank("switch_server").(serverId := Some(serverId))
  }

  function SwitchChannelEnvelope(channelId: string): (e: Envelope)
    ensures e.typ == "switch_channel" && HasExactly(e, {Type, ChannelId}) && e.channelId == Some(channelId)
  {
    Blank("switch_channel").(channelId := Some(channelId))
  }

  function SwitchDmEnvelope(dmId: string): (e: Envelope)
    ensures e.typ == "switch_dm" && HasExactly(e, {Type, DmId}) && e.dmId == Some(dmId)
  {
    Blank("switch_dm").(dmId := Some(dmId))
  }

  function CreateServerEnvelope(name: string): (e: Envelope)
    ensures e.typ == "create_server" && HasExactly(e, {Type, Name}) && e.name == Some(name)
  {
    Blank("create_server").(name := Some(name))
  }

  class MainViewModel {
    const ws: WebSocketService
    const auth: AuthService
    const voice: VoiceService
    var messages: seq<Message>
    var servers: seq<Server>
    var channels: seq<Channel>
    var friends: seq<Friend>
    var dms: seq<DirectMessage>
    var selectedServer: Option<Server>
    var selectedChannel: Option<Channel>
    var selectedDm: Option<DirectMessage>
    var currentView: string
    var messageInput: string
    var isInVoice: bool

    /** The view model and the voice service share one socket service. */
    ghost predicate Valid()
      reads this, ws
    {
      voice.ws == ws && ws.Valid()
    }

    function Snapshot(): Collections
      reads this
    {
      Collections(messages, servers, channels, friends, dms)
    }

    constructor (ws: WebSocketService, auth: AuthService, voice: VoiceService)
      requires voice.ws == ws && ws.Valid()
      ensures Valid()
      ensures this.ws == ws && this.auth == auth && this.voice == voice
      ensures Snapshot() == Collections([], [], [], [], [])
      ensures selectedServer == None && selectedChannel == None && selectedDm == None
      ensures currentView == "servers" && messageInput == "" && !isInVoice
    {
      this.ws := ws;
      this.auth := auth;
      this.voice := voice;
      messages, servers, channels, friends, dms := [], [], [], [], [];
      selectedServer, selectedChannel, selectedDm := None, None, None;
      currentView := "servers";
      messageInput := "";
      isInVoice := false;
    }

    /** Clears the messages and adds the records one by one. */
    method RefillMessages(items: Option<seq<Message>>)
      modifies this`messages
      ensures messages == OrEmpty(items)
    {
      messages := [];
      if items.Some? {
        var all := items.value;
        for i := 0 to |all|
          invariant messages == all[..i]
        {
          messages := messages + [all[i]];
        }
      }
    }

    /** Clears the servers and adds the records one by one. */
    method RefillServers(items: Option<seq<Server>>)
      modifies this`servers
      ensures servers == OrEmpty(items)
    {
      servers := [];
      if items.Some? {
        var all := items.value;
        for i := 0 to |all|
          invariant servers == all[..i]
        {
          servers := servers + [all[i]];
        }
      }
    }

    /** Clears the channels and adds the records one by one. */
    method RefillChannels(items: Option<seq<Channel>>)
      modifies this`channels
      ensures channels == OrEmpty(items)
    {
      channels := [];
      if items.Some? {
        var all := items.value;
        for i := 0 to |all|
          invariant channels == all[..i]
        {
          channels := channels + [all[i]];
        }
      }
    }

    /** Clears the friends and adds the records one by one. */
    method RefillFriends(items: Option<seq<Friend>>)
      modifies this`friends
      ensures friends == OrEmpty(items)
    {
      friends := [];
      if items.Some? {
        var all := items.value;
        for i := 0 to |all|
          invariant friends == all[..i]
        {
          friends := friends + [all[i]];
        }
      }
    }

    /** Clears the direct-message threads and adds the records one by one. */
    method RefillDms(items: Option<seq<DirectMessage>>)
      modifies this`dms
      ensures dms == OrEmpty(items)
    {
      dms := [];
      if items.Some? {
        var all := items.value;
        for i := 0 to |all|
          invariant dms == all[..i]
        {
          dms := dms + [all[i]];
        }
      }
    }

    /**
     * Start-up: when someone is signed in, each listing the REST calls
     * returned (non-null) replaces its collection; the messages and the
     * channels are left alone.
     */
    method InitializeAsync(fetchedServers: Option<seq<Server>>, fetchedFriends: Option<seq<Friend>>,
                           fetchedDms: Option<seq<DirectMessage>>)
      modifies this`servers, this`friends, this`dms
      ensures auth.currentUsername.Some? && fetchedServers.Some? ==> servers == fetchedServers.value
      ensures auth.currentUsername.Some? && fetchedFriends.Some? ==> friends == fetchedFriends.value
      ensures auth.currentUsername.Some? && fetchedDms.Some? ==> dms == fetchedDms.value
      ensures auth.currentUsername.None? || fetchedServers.None? ==> servers == old(servers)
      ensures auth.currentUsername.None? || fetchedFriends.None? ==> friends == old(friends)
      ensures auth.currentUsername.None? || fetchedDms.None? ==> dms == old(dms)
    {
      if auth.currentUsername.Some? {
        if fetchedServers.Some? {
          RefillServers(fetchedServers);
        }
        if fetchedFriends.Some? {
          RefillFriends(fetchedFriends);
        }
        if fetchedDms.Some? {
          RefillDms(fetchedDms);
        }
      }
    }

    /** The handler for `MessageReceived`: the collections become `Reduce` of what they were; nothing else changes. */
    method OnWebSocketMessageReceived(env: Envelope, parse: string -> Option<Instant>, now: Instant)
      modifies this`messages, this`servers, this`channels, this`friends, this`dms
      ensures Snapshot() == Reduce(old(Snapshot()), env, parse, now)
    {
      if env.typ == "message" {
        if !IsNullOrEmpty(env.content) && !IsNullOrEmpty(env.username) {
          messages := messages + [ChatMessage(env.content.value, env.username.value, Stamp(env.timestamp, parse, now))];
        }
      } else if env.typ == "history" {
        RefillMessages(env.history);
      } else if env.typ == "server_list" {
        RefillServers(env.servers);
      } else if env.typ == "channel_list" {
        RefillChannels(env.channels);
      } else if env.typ == "friends_list" {
        RefillFriends(env.friends);
      } else if env.typ == "dm_list" {
        RefillDms(env.dms);
      } else if env.typ == "system" {
        if !IsNullOrEmpty(env.content) {
          messages := messages + [SystemMessage(env.content.value, now)];
        }
      }
    }

    /** Whether the Send command is enabled. */
    predicate CanSendMessage()
      reads this
      ensures CanSendMessage() ==> messageInput != ""
    {
      !IsBlank(messageInput)
    }

    /** Whether the Join Voice command is enabled: a voice channel is selected. */
    predicate CanJoinVoice()
      reads this
    {
      selectedChannel.Some? && selectedChannel.value.channelType == "voice"
    }

    /** Whether the Leave Voice command is enabled. */
    predicate CanLeaveVoice()
      reads this
    {
      isInVoice
    }

    /**
     * When the Send command is disabled (whitespace-only input) nothing is
     * sent and the input is kept; otherwise one chat envelope carries the
     * input and the input is cleared, which disables the command again.
     */
    method SendMessageAsync()
      requires Valid()
      modifies this`messageInput, ws
      ensures Valid()
      ensures !old(CanSendMessage()) ==> messageInput == old(messageInput) && ws.sent == old(ws.sent)
      ensures old(CanSendMessage()) ==>
        && messageInput == "" && !CanSendMessage()
        && ws.sent == old(ws.sent) + (if old(ws.IsOpen()) then [ChatEnvelope(old(messageInput))] else [])
      ensures ws.socket == old(ws.socket) && ws.isConnected == old(ws.isConnected) && ws.events == old(ws.events)
      ensures ws.cancellation == old(ws.cancellation) && ws.serverUrl == old(ws.serverUrl)
    {
      if IsBlank(messageInput) {
        return;
      }
      ws.SendMessageAsync(ChatEnvelope(messageInput));
      messageInput := "";
    }

    /** Selecting a server that differs from the current selection, and is not null, sends one `switch_server` with its id. */
    method SetSelectedServer(value: Option<Server>)
      requires Valid()
      modifies this`selectedServer, ws
      ensures Valid()
      ensures selectedServer == value
      ensures ws.sent == old(ws.sent)
        + (if value != old(selectedServer) && value.Some? && old(ws.IsOpen())
           then [SwitchServerEnvelope(value.value.serverId)] else [])
      ensures ws.socket == old(ws.socket) && ws.isConnected == old(ws.isConnected) && ws.events == old(ws.events)
      ensures ws.cancellation == old(ws.cancellation) && ws.serverUrl == old(ws.serverUrl)
    {
      var changed := value != selectedServer;
      selectedServer := value;
      if changed && value.Some? {
        ws.SendMessageAsync(SwitchServerEnvelope(value.value.serverId));
      }
    }

    /** Selecting a channel that differs from the current selection, and is not null, sends one `switch_channel` with its id. */
    method SetSelectedChannel(value: Option<Channel>)
      requires Valid()
      modifies this`selectedChannel, ws
      ensures Valid()
      ensures selectedChannel == value
      ensures ws.sent == old(ws.sent)
        + (if value != old(selectedChannel) && value.Some? && old(ws.IsOpen())
           then [SwitchChannelEnvelope(value.value.channelId)] else [])
      ensures ws.socket == old(ws.socket) && ws.isConnected == old(ws.isConnected) && ws.events == old(ws.events)
      ensures ws.cancellation == old(ws.cancellation) && ws.serverUrl == old(ws.serverUrl)
    {
      var changed := value != selectedChannel;
      selectedChannel := value;
      if changed && value.Some? {
        ws.SendMessageAsync(SwitchChannelEnvelope(value.value.channelId));
      }
    }

    /** Selecting a direct-message thread that differs from the current one, and is not null, sends one `switch_dm` with its id. */
    method SetSelectedDm(value: Option<DirectMessage>)
      requires Valid()
      modifies this`selectedDm, ws
      ensures Valid()
      ensures selectedDm == value
      ensures ws.sent == old(ws.sent)
        + (if value != old(selectedDm) && value.Some? && old(ws.IsOpen())
           then [SwitchDmEnvelope(value.value.dmId)] else [])
      ensures ws.socket == old(ws.socket) && ws.isConnected == old(ws.isConnected) && ws.events == old(ws.events)
      ensures ws.cancellation == old(ws.cancellation) && ws.serverUrl == old(ws.serverUrl)
    {
      var changed := value != selectedDm;
      selectedDm := value;
      if changed && value.Some? {
        ws.SendMessageAsync(SwitchDmEnvelope(value.value.dmId));
      }
    }

    method ShowServers()
      modifies this`currentView
      ensures currentView == "servers"
    {
      currentView := "servers";
    }

    method ShowFriends()
      modifies this`currentView
      ensures currentView == "friends"
    {
      currentView := "friends";
    }

    /** Sends one `create_server` named "New Server". */
    method CreateServerAsync()
      requires Valid()
      modifies ws
      ensures Valid()
      ensures ws.sent == old(ws.sent) + (if old(ws.IsOpen()) then [CreateServerEnvelope(NewServerName)] else [])
      ensures ws.socket == old(ws.socket) && ws.isConnected == old(ws.isConnected) && ws.events == old(ws.events)
      ensures ws.cancellation == old(ws.cancellation) && ws.serverUrl == old(ws.serverUrl)
    {
      ws.SendMessageAsync(CreateServerEnvelope(NewServerName));
    }

    /**
     * With both a channel and a server selected, joins that channel's voice
     * session and sets the voice flag; otherwise nothing happens. The
     * channel's type is not checked here, only by the command's guard, and
     * the guard does not ask for a server: an enabled Join Voice with no
     * server selected does nothing, and a join on a text channel goes ahead.
     */
    method JoinVoiceAsync(captureStarts: bool, playbackStarts: bool)
      requires Valid() && voice.Valid()
      modifies this`isInVoice, voice, ws, voice.audio
      ensures Valid() && voice.Valid()
      ensures old(selectedChannel.Some? && selectedServer.Some?) ==>
        && isInVoice && voice.inVoiceChannel
        && voice.currentChannelId == Some(selectedChannel.value.channelId)
        && ws.sent == old(ws.sent)
             + (if old(ws.IsOpen()) then [JoinVoiceEnvelope(selectedServer.value.serverId, selectedChannel.value.channelId)] else [])
      ensures !old(selectedChannel.Some? && selectedServer.Some?) ==>
        && isInVoice == old(isInVoice) && voice.inVoiceChannel == old(voice.inVoiceChannel)
        && ws.sent == old(ws.sent)
      ensures old(CanJoinVoice() && selectedServer.None?) ==> isInVoice == old(isInVoice) && ws.sent == old(ws.sent)
      ensures old(selectedChannel.Some? && !CanJoinVoice() && selectedServer.Some?) ==> isInVoice && CanLeaveVoice()
      ensures voice.peers == old(voice.peers)
      ensures ws.socket == old(ws.socket) && ws.isConnected == old(ws.isConnected) && ws.events == old(ws.events)
      ensures ws.cancellation == old(ws.cancellation) && ws.serverUrl == old(ws.serverUrl)
      ensures voice.audio.isMuted == old(voice.audio.isMuted)
      ensures old(selectedChannel.Some? && selectedServer.Some?) ==>
        && voice.audio.waveIn != null && fresh(voice.audio.waveIn) && voice.audio.waveIn.recording == captureStarts
        && voice.audio.waveOut != null && fresh(voice.audio.waveOut) && voice.audio.waveOut.playing == playbackStarts
        && voice.audio.waveProvider != null && fresh(voice.audio.waveProvider)
        && voice.audio.waveProvider.samples == [] && voice.audio.waveProvider.BufferLength() == 192000
      ensures !old(selectedChannel.Some? && selectedServer.Some?) ==>
        && voice.currentChannelId == old(voice.currentChannelId)
        && voice.audio.waveIn == old(voice.audio.waveIn) && voice.audio.waveOut == old(voice.audio.waveOut)
        && voice.audio.waveProvider == old(voice.audio.waveProvider)
    {
      if selectedChannel.Some? && selectedServer.Some? {
        voice.JoinVoiceChannelAsync(selectedServer.value.serverId, selectedChannel.value.channelId, captureStarts, playbackStarts);
        isInVoice := true;
      }
    }

    /** Leaves the voice channel and always clears the voice flag. */
    method LeaveVoiceAsync()
      requires Valid() && voice.Valid()
      modifies this`isInVoice, voice, ws, voice.audio, voice.audio.waveIn, voice.audio.waveOut, voice.peers.Values
      ensures Valid() && voice.Valid()
      ensures !isInVoice && !voice.inVoiceChannel && voice.peers == map[]
      ensures !CanLeaveVoice()
      ensures voice.currentChannelId == None
      ensures forall id :: id in old(voice.peers) ==> old(voice.peers)[id].closed
      ensures ws.sent == old(ws.sent) + (if old(ws.IsOpen()) then [LeaveVoiceEnvelope()] else [])
      ensures ws.socket == old(ws.socket) && ws.isConnected == old(ws.isConnected) && ws.events == old(ws.events)
      ensures ws.cancellation == old(ws.cancellation) && ws.serverUrl == old(ws.serverUrl)
      ensures voice.audio.waveIn == null && voice.audio.waveOut == null
      ensures old(voice.audio.waveIn) != null ==> !old(voice.audio.waveIn).recording && old(voice.audio.waveIn).disposed
      ensures old(voice.audio.waveOut) != null ==> !old(voice.audio.waveOut).playing && old(voice.audio.waveOut).disposed
      ensures voice.audio.waveProvider == old(voice.audio.waveProvider) && voice.audio.isMuted == old(voice.audio.isMuted)
    {
      voice.LeaveVoiceChannelAsync();
      isInVoice := false;
    }

    /** The mute command as written: it sets the mute flag to "not in a voice channel", whatever the flag was. */
    method ToggleMute()
      requires voice.Valid()
      modifies voice.audio
      ensures voice.Valid()
      ensures voice.audio.isMuted == !voice.inVoiceChannel
      ensures voice.audio.waveIn == old(voice.audio.waveIn) && voice.audio.waveOut == old(voice.audio.waveOut)
      ensures voice.audio.waveProvider == old(voice.audio.waveProvider)
    {
      voice.SetMuted(!voice.inVoiceChannel);
    }
  }
}
