/**
 * `VoiceService`: the table of peer connections keyed by peer username, the
 * voice-channel flag and channel id, and the signaling envelopes it sends.
 *
 * A peer connection is an opaque handle; its ghost fields record what the
 * service handed to it (descriptions, remote candidates) and whether it was
 * closed. The offer and answer the handle generates are parameters, as is
 * whether each audio device starts. The table tracks membership only: there
 * is no per-call state beyond "an entry exists".
 */
module Voice {
  import opened Wrappers
  import opened Models
  import opened Sockets
  import opened Audio

  /** An `RTCPeerConnection` handle; `peerId` is the id its ICE callback captured when it was created. */
  class PeerConnection {
    const peerId: string
    ghost var localDescription: Option<Blob>
    ghost var remoteDescription: Option<Blob>
    ghost var remoteCandidates: seq<Blob>
    ghost var closed: bool

    constructor (peerId: string)
      ensures this.peerId == peerId
      ensures localDescription == None && remoteDescription == None && remoteCandidates == [] && !closed
    {
      this.peerId := peerId;
      localDescription := None;
      remoteDescription := None;
      remoteCandidates := [];
      closed := false;
    }

    method Close()
      modifies this
      ensures closed
      ensures localDescription == old(localDescription) && remoteDescription == old(remoteDescription)
      ensures remoteCandidates == old(remoteCandidates)
    {
      closed := true;
    }
  }

  /** `join_voice` with the server and channel ids. */
  function JoinVoiceEnvelope(serverId: string, channelId: string): (e: Envelope)
    ensures e.typ == "join_voice" && HasExactly(e, {Type, ServerId, ChannelId})
    ensures e.serverId == Some(serverId) && e.channelId == Some(channelId)
  {
    Blank("join_voice").(serverId := Some(serverId), channelId := Some(channelId))
  }

  /** `leave_voice`, with no other field. */
  function LeaveVoiceEnvelope(): (e: Envelope)
    ensures e.typ == "leave_voice" && HasExactly(e, {Type})
  {
    Blank("leave_voice")
  }

  /** `webrtc_offer` to `target`. */
  function OfferEnvelope(target: string, offer: Blob): (e: Envelope)
    ensures e.typ == "webrtc_offer" && HasExactly(e, {Type, Target, Offer})
    ensures e.target == Some(target) && e.offer == Some(offer)
  {
    Blank("webrtc_offer").(target := Some(target), offer := Some(offer))
  }

  /** `webrtc_answer` to `target`. */
  function AnswerEnvelope(target: string, answer: Blob): (e: Envelope)
    ensures e.typ == "webrtc_answer" && HasExactly(e, {Type, Target, Answer})
    ensures e.target == Some(target) && e.answer == Some(answer)
  {
    Blank("webrtc_answer").(target := Some(target), answer := Some(answer))
  }

  /** `webrtc_ice` to `target`. */
  function IceEnvelope(target: string, candidate: Blob): (e: Envelope)
    ensures e.typ == "webrtc_ice" && HasExactly(e, {Type, Target, Candidate})
    ensures e.target == Some(target) && e.candidate == Some(candidate)
  {
    Blank("webrtc_ice").(target := Some(target), candidate := Some(candidate))
  }

  class VoiceService {
    const ws: WebSocketService
    const audio: AudioService
    var peers: map<string, PeerConnection>
    var inVoiceChannel: bool
    var currentChannelId: Option<string>

    /**
     * The channel id is recorded exactly while in a voice channel, and every
     * stored handle is open and filed under the peer id it was created for.
     */
    ghost predicate Valid()
      reads this, ws, audio, peers.Values
    {
      && ws.Valid() && audio.Valid()
      && (inVoiceChannel <==> currentChannelId.Some?)
      && (forall id :: id in peers ==> peers[id].peerId == id && !peers[id].closed)
    }

    constructor (ws: WebSocketService, audio: AudioService)
      requires ws.Valid() && audio.Valid()
      ensures Valid()
      ensures this.ws == ws && this.audio == audio
      ensures peers == map[] && !inVoiceChannel && currentChannelId == None
    {
      this.ws := ws;
      this.audio := audio;
      peers := map[];
      inVoiceChannel := false;
      currentChannelId := None;
    }

    /** Enters the channel, announces it with one `join_voice`, then starts capture and playback. */
    method JoinVoiceChannelAsync(serverId: string, channelId: string, captureStarts: bool, playbackStarts: bool)
      requires Valid()
      modifies this, ws, audio
      ensures Valid()
      ensures inVoiceChannel && currentChannelId == Some(channelId)
      ensures peers == old(peers)
      ensures ws.sent == old(ws.sent) + (if old(ws.IsOpen()) then [JoinVoiceEnvelope(serverId, channelId)] else [])
      ensures ws.socket == old(ws.socket) && ws.isConnected == old(ws.isConnected) && ws.events == old(ws.events)
      ensures ws.cancellation == old(ws.cancellation) && ws.serverUrl == old(ws.serverUrl)
      ensures audio.waveIn != null && fresh(audio.waveIn) && audio.waveIn.recording == captureStarts
      ensures audio.waveOut != null && fresh(audio.waveOut) && audio.waveOut.playing == playbackStarts
      ensures audio.waveProvider != null && fresh(audio.waveProvider)
      ensures audio.waveProvider.samples == [] && audio.waveProvider.BufferLength() == 192000
      ensures playbackStarts ==> audio.waveOut.source == audio.waveProvider
      ensures audio.isMuted == old(audio.isMuted)
    {
      currentChannelId := Some(channelId);
      inVoiceChannel := true;
      ws.SendMessageAsync(JoinVoiceEnvelope(serverId, channelId));
      audio.StartCapture(captureStarts);
      audio.StartPlayback(playbackStarts);
    }

    /**
     * Leaves the channel: clears the flag and the channel id, sends one
     * `leave_voice`, stops both devices, closes every stored peer
     * connection, however many there are, and empties the table.
     */
    method LeaveVoiceChannelAsync()
      requires Valid()
      modifies this, ws, audio, audio.waveIn, audio.waveOut, peers.Values
      ensures Valid()
      ensures !inVoiceChannel && currentChannelId == None
      ensures peers == map[]
      ensures forall id :: id in old(peers) ==> old(peers)[id].closed
      ensures ws.sent == old(ws.sent) + (if old(ws.IsOpen()) then [LeaveVoiceEnvelope()] else [])
      ensures ws.socket == old(ws.socket) && ws.isConnected == old(ws.isConnected) && ws.events == old(ws.events)
      ensures ws.cancellation == old(ws.cancellation) && ws.serverUrl == old(ws.serverUrl)
      ensures audio.waveIn == null && audio.waveOut == null
      ensures old(audio.waveIn) != null ==> !old(audio.waveIn).recording && old(audio.waveIn).disposed
      ensures old(audio.waveOut) != null ==> !old(audio.waveOut).playing && old(audio.waveOut).disposed
      ensures audio.waveProvider == old(audio.waveProvider) && audio.isMuted == old(audio.isMuted)
    {
      inVoiceChannel := false;
      currentChannelId := None;
      ws.SendMessageAsync(LeaveVoiceEnvelope());
      audio.StopCapture();
      audio.StopPlayback();

      var pending := peers.Values;
      while pending != {}
        invariant peers == old(peers) && pending <= peers.Values
        invariant forall id :: id in peers && peers[id] !in pending ==> peers[id].closed
        modifies peers.Values
        decreases pending
      {
        var pc :| pc in pending;
        pc.Close();
        pending := pending - {pc};
      }
      peers := map[];
    }

    /** Creates a handle for `peerId` and files it there, replacing (and not closing) any handle already filed. */
    method CreatePeerConnection(peerId: string) returns (pc: PeerConnection)
      requires Valid()
      modifies this
      ensures Valid()
      ensures fresh(pc) && pc.peerId == peerId
      ensures pc.localDescription == None && pc.remoteDescription == None && pc.remoteCandidates == []
      ensures peers == old(peers)[peerId := pc]
      ensures peerId in old(peers) ==> !old(peers)[peerId].closed
      ensures inVoiceChannel == old(inVoiceChannel) && currentChannelId == old(currentChannelId)
    {
      pc := new PeerConnection(peerId);
      peers := peers[peerId := pc];
    }

    /**
     * The handle's ICE callback: a non-null candidate is forwarded as one
     * `webrtc_ice` to the peer id the handle captured, whether or not the
     * handle is still in the table.
     */
    method OnIceCandidate(pc: PeerConnection, candidate: Option<Blob>)
      requires ws.Valid()
      modifies ws
      ensures ws.Valid()
      ensures ws.sent == old(ws.sent)
                         + (if candidate.Some? && old(ws.IsOpen()) then [IceEnvelope(pc.peerId, candidate.value)] else [])
      ensures ws.socket == old(ws.socket) && ws.isConnected == old(ws.isConnected) && ws.events == old(ws.events)
      ensures ws.cancellation == old(ws.cancellation) && ws.serverUrl == old(ws.serverUrl)
    {
      if candidate.Some? {
        ws.SendMessageAsync(IceEnvelope(pc.peerId, candidate.value));
      }
    }

    /** Calls `target`: a new handle filed under it carrying `offer`, one `webrtc_offer`, then both devices started. */
    method CallUserAsync(target: string, offer: Blob, captureStarts: bool, playbackStarts: bool)
      requires Valid()
      modifies this, ws, audio
      ensures Valid()
      ensures target in peers && fresh(peers[target])
      ensures peers == old(peers)[target := peers[target]]
      ensures peers[target].localDescription == Some(offer) && peers[target].remoteDescription == None
      ensures ws.sent == old(ws.sent) + (if old(ws.IsOpen()) then [OfferEnvelope(target, offer)] else [])
      ensures ws.socket == old(ws.socket) && ws.isConnected == old(ws.isConnected) && ws.events == old(ws.events)
      ensures ws.cancellation == old(ws.cancellation) && ws.serverUrl == old(ws.serverUrl)
      ensures inVoiceChannel == old(inVoiceChannel) && currentChannelId == old(currentChannelId)
      ensures audio.isMuted == old(audio.isMuted)
      ensures audio.waveIn != null && fresh(audio.waveIn) && audio.waveIn.recording == captureStarts
      ensures audio.waveOut != null && fresh(audio.waveOut) && audio.waveOut.playing == playbackStarts
      ensures audio.waveProvider != null && fresh(audio.waveProvider)
      ensures audio.waveProvider.samples == [] && audio.waveProvider.BufferLength() == 192000
      ensures playbackStarts ==> audio.waveOut.source == audio.waveProvider
    {
      var pc := CreatePeerConnection(target);
      pc.localDescription := Some(offer);
      ws.SendMessageAsync(OfferEnvelope(target, offer));
      audio.StartCapture(captureStarts);
      audio.StartPlayback(playbackStarts);
    }

    /**
     * Answers an offer from `from`: a new handle filed under it with the offer
     * as remote and `answer` as local description, one `webrtc_answer`, then
     * both devices started.
     */
    method HandleOfferAsync(from: string, offer: Blob, answer: Blob, captureStarts: bool, playbackStarts: bool)
      requires Valid()
      modifies this, ws, audio
      ensures Valid()
      ensures from in peers && fresh(peers[from])
      ensures peers == old(peers)[from := peers[from]]
      ensures peers[from].remoteDescription == Some(offer) && peers[from].localDescription == Some(answer)
      ensures ws.sent == old(ws.sent) + (if old(ws.IsOpen()) then [AnswerEnvelope(from, answer)] else [])
      ensures ws.socket == old(ws.socket) && ws.isConnected == old(ws.isConnected) && ws.events == old(ws.events)
      ensures ws.cancellation == old(ws.cancellation) && ws.serverUrl == old(ws.serverUrl)
      ensures inVoiceChannel == old(inVoiceChannel) && currentChannelId == old(currentChannelId)
      ensures audio.isMuted == old(audio.isMuted)
      ensures audio.waveIn != null && fresh(audio.waveIn) && audio.waveIn.recording == captureStarts
      ensures audio.waveOut != null && fresh(audio.waveOut) && audio.waveOut.playing == playbackStarts
      ensures audio.waveProvider != null && fresh(audio.waveProvider)
      ensures audio.waveProvider.samples == [] && audio.waveProvider.BufferLength() == 192000
      ensures playbackStarts ==> audio.waveOut.source == audio.waveProvider
    {
      var pc := CreatePeerConnection(from);
      pc.remoteDescription := Some(offer);
      pc.localDescription := Some(answer);
      ws.SendMessageAsync(AnswerEnvelope(from, answer));
      audio.StartCapture(captureStarts);
      audio.StartPlayback(playbackStarts);
    }

    /** Applies an answer to the handle filed under `from`; for an unknown peer nothing happens. No key is added or removed and nothing is sent. */
    method HandleAnswerAsync(from: string, answer: Blob)
      requires Valid()
      modifies if from in peers then {peers[from]} else {}
      ensures Valid()
      ensures peers == old(peers)
      ensures from in peers ==> peers[from].remoteDescription == Some(answer)
                                && peers[from].localDescription == old(peers[from].localDescription)
                                && peers[from].remoteCandidates == old(peers[from].remoteCandidates)
      ensures ws.sent == old(ws.sent)
    {
      if from in peers {
        var pc := peers[from];
        pc.remoteDescription := Some(answer);
      }
    }

    /** Adds a remote candidate to the handle filed under `from`; for an unknown peer nothing happens. No key is added or removed and nothing is sent. */
    method HandleIceCandidateAsync(from: string, candidate: Blob)
      requires Valid()
      modifies if from in peers then {peers[from]} else {}
      ensures Valid()
      ensures peers == old(peers)
      ensures from in peers ==> peers[from].remoteCandidates == old(peers[from].remoteCandidates) + [candidate]
                                && peers[from].localDescription == old(peers[from].localDescription)
                                && peers[from].remoteDescription == old(peers[from].remoteDescription)
      ensures ws.sent == old(ws.sent)
    {
      if from in peers {
        var pc := peers[from];
        pc.remoteCandidates := pc.remoteCandidates + [candidate];
      }
    }

    /** Forwards to the audio service's single mute flag. */
    method SetMuted(muted: bool)
      requires Valid()
      modifies audio
      ensures Valid()
      ensures audio.isMuted == muted
      ensures audio.waveIn == old(audio.waveIn) && audio.waveOut == old(audio.waveOut)
      ensures audio.waveProvider == old(audio.waveProvider)
    {
      audio.SetMuted(muted);
    }
  }
}
