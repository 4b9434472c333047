/**
 The call sessions of src/core/toxcall.cpp as classes: the common part
 ToxCall, the one-to-one ToxFriendCall and the ToxGroupCall. A derived
 call holds its ToxCall part as `base`; each destructor is an explicit
 Destroy method that runs the derived part first and then the base part.
 The audio and camera singletons are the objects `audio` and `camera`
 the base part is given at construction.
 */
module ToxCalls {
  import opened Devices
  import opened CallLedger
  import opened GroupPeers
  import opened Timeout

  /** The peer's reported TOXAV_FRIEND_CALL_STATE bit set; 0 is NONE. */
  type FriendCallState = nat

  /** The state ToxCall itself declares, shared by both kinds of call. */
  class ToxCall {
    const audio: Audio
    const camera: Camera
    var active: bool
    var muteVol: bool
    var muteMic: bool
    var videoEnabled: bool
    var nullVideoBitrate: bool
    /** Whether the CoreVideoSource pointer is set. */
    var hasVideoSource: bool
    /** Whether the audio-input frame handler is connected. */
    var audioInConn: bool
    /** Whether the camera frame handler is connected. */
    var videoInConn: bool

    /** Records the video flag only; the derived constructors subscribe. */
    constructor (videoEnabled: bool, audio: Audio, camera: Camera)
      ensures this.audio == audio && this.camera == camera && this.videoEnabled == videoEnabled
      ensures !active && !muteVol && !muteMic && !nullVideoBitrate
      ensures !hasVideoSource && !audioInConn && !videoInConn
    {
      this.audio := audio;
      this.camera := camera;
      this.videoEnabled := videoEnabled;
      active, muteVol, muteMic, nullVideoBitrate := false, false, false, false;
      hasVideoSource, audioInConn, videoInConn := false, false, false;
    }

    function IsActive(): bool
      reads this
    {
      active
    }

    method SetActive(value: bool)
      modifies this`active
      ensures IsActive() == value
    {
      active := value;
    }

    function GetMuteVol(): bool
      reads this
    {
      muteVol
    }

    method SetMuteVol(value: bool)
      modifies this`muteVol
      ensures GetMuteVol() == value
    {
      muteVol := value;
    }

    function GetMuteMic(): bool
      reads this
    {
      muteMic
    }

    method SetMuteMic(value: bool)
      modifies this`muteMic
      ensures GetMuteMic() == value
    {
      muteMic := value;
    }

    function GetVideoEnabled(): bool
      reads this
    {
      videoEnabled
    }

    /** Changes the flag only: no device is subscribed or given back here. */
    method SetVideoEnabled(value: bool)
      modifies this`videoEnabled
      ensures GetVideoEnabled() == value
    {
      videoEnabled := value;
    }

    function GetNullVideoBitrate(): bool
      reads this
    {
      nullVideoBitrate
    }

    method SetNullVideoBitrate(value: bool)
      modifies this`nullVideoBitrate
      ensures GetNullVideoBitrate() == value
    {
      nullVideoBitrate := value;
    }

    function HasVideoSource(): bool
      reads this
    {
      hasVideoSource
    }

    /**
     ~ToxCall: disconnects and gives back the audio input; disconnects and
     gives back the camera only if video is enabled now.
     */
    method Destroy()
      requires audio.Valid()
      modifies this`audioInConn, this`videoInConn, audio`inputRefs, camera`refs
      ensures audio.Valid()
      ensures Snapshot(audio, camera) == ReleaseBase(old(Snapshot(audio, camera)), videoEnabled)
      ensures !audioInConn
      ensures videoInConn == (old(videoInConn) && !videoEnabled)
    {
      audioInConn := false;
      audio.UnsubscribeInput();
      if videoEnabled {
        videoInConn := false;
        camera.Unsubscribe();
      }
    }
  }

  /** A one-to-one call. */
  class ToxFriendCall {
    const base: ToxCall
    var alSource: Handle
    var timer: Timer
    var state: FriendCallState

    /**
     Subscribes the audio input and one fresh output channel and, when
     video is enabled, sets the camera up if needed and subscribes it.
     */
    constructor (friendNum: CallId, videoEnabled: bool, audio: Audio, camera: Camera)
      requires audio.Valid()
      modifies audio, camera
      ensures fresh(base) && base.audio == audio && base.camera == camera
      ensures base.videoEnabled == videoEnabled
      ensures audio.Valid()
      ensures Snapshot(audio, camera) == FriendAcquire(old(Snapshot(audio, camera)), videoEnabled, alSource)
      ensures alSource != 0 && alSource !in old(audio.outputs)
      ensures base.audioInConn && base.videoInConn == videoEnabled && base.hasVideoSource == videoEnabled
      ensures camera.configured == (old(camera.configured) || videoEnabled)
      ensures !base.active && !base.muteVol && !base.muteMic && !base.nullVideoBitrate
      ensures timer == NoTimer && state == 0
    {
      var b := new ToxCall(videoEnabled, audio, camera);
      audio.SubscribeInput();
      b.audioInConn := true;
      var h := audio.SubscribeOutput();
      if b.videoEnabled {
        b.hasVideoSource := true;
        if camera.IsNone() {
          camera.SetupDefault();
        }
        camera.Subscribe();
        b.videoInConn := true;
      }
      base := b;
      alSource := h;
      timer := NoTimer;
      state := 0;
    }

    function GetAlSource(): Handle
      reads this
    {
      alSource
    }

    /** Replaces the handle only: the channel is neither subscribed nor given back. */
    method SetAlSource(value: Handle)
      modifies this`alSource
      ensures GetAlSource() == value
    {
      alSource := value;
    }

    function GetState(): FriendCallState
      reads this
    {
      state
    }

    method SetState(value: FriendCallState)
      modifies this`state
      ensures GetState() == value
    {
      state := value;
    }

    method StartTimeout(callId: CallId)
      modifies this`timer
      ensures timer == Start(old(timer), callId)
    {
      if timer.NoTimer? {
        timer := Timer(callId, false);
      }
      if !timer.running {
        timer := timer.(running := true);
      }
    }

    method StopTimeout()
      modifies this`timer
      ensures timer == Stop(old(timer))
    {
      if timer.NoTimer? {
        return;
      }
      timer := timer.(running := false);
      timer := NoTimer;
    }

    /**
     ~ToxFriendCall gives back the channel alSource holds now; the owned
     timer goes with the object; then ~ToxCall runs.
     */
    method Destroy()
      requires base.audio.Valid()
      modifies this`timer, base`audioInConn, base`videoInConn
      modifies base.audio`outputs, base.audio`inputRefs, base.camera`refs
      ensures base.audio.Valid()
      ensures Snapshot(base.audio, base.camera)
           == FriendRelease(old(Snapshot(base.audio, base.camera)), alSource, base.videoEnabled)
      ensures timer == NoTimer
      ensures !base.audioInConn && base.videoInConn == (old(base.videoInConn) && !base.videoEnabled)
    {
      base.audio.UnsubscribeOutput(alSource);
      timer := NoTimer;
      base.Destroy();
    }
  }

  /** Gives back one subscription per entry of m: exactly the channels m holds. */
  method ReleaseChannels(audio: Audio, m: map<PeerKey, Handle>)
    requires audio.Valid()
    modifies audio`outputs
    ensures audio.Valid()
    ensures audio.outputs == old(audio.outputs) - Values(m)
  {
    var rest := m;
    ghost var released: multiset<Handle> := multiset{};
    while rest != map[]
      invariant audio.Valid()
      invariant released + Values(rest) == Values(m)
      invariant audio.outputs == old(audio.outputs) - released
      decreases |rest|
    {
      var k :| k in rest;
      var v := rest[k];
      audio.UnsubscribeOutput(v);
      ValuesRemove(rest, k);
      SubtractInTurn(old(audio.outputs), released, v);
      RemoveShrinks(rest, k);
      released := released + multiset{v};
      rest := rest - {k};
    }
  }

  /** Multiset algebra helper: giving channels back one after another is giving them back together. */
  lemma SubtractInTurn(a: multiset<Handle>, b: multiset<Handle>, v: Handle)
    ensures (a - b) - multiset{v} == a - (b + multiset{v})
  {
  }

  /** A group call. */
  class ToxGroupCall {
    const base: ToxCall
    var peers: map<PeerKey, Handle>

    /** The peer table with the device ledger. */
    function State(): GroupState
      reads this, base, base.audio, base.camera
    {
      GroupState(Snapshot(base.audio, base.camera), peers)
    }

    /** Subscribes the audio input only; the base part is built with video off. */
    constructor (groupNum: int, audio: Audio, camera: Camera)
      modifies audio`inputRefs
      ensures fresh(base) && base.audio == audio && base.camera == camera
      ensures !base.videoEnabled && base.audioInConn && !base.videoInConn && !base.hasVideoSource
      ensures !base.active && !base.muteVol && !base.muteMic && !base.nullVideoBitrate
      ensures State() == GroupCreate(old(Snapshot(audio, camera)))
    {
      var b := new ToxCall(false, audio, camera);
      audio.SubscribeInput();
      b.audioInConn := true;
      base := b;
      peers := map[];
    }

    /** Subscribes a fresh channel and stores it under peerId, overwriting any channel there. */
    method AddPeer(peerId: PeerKey)
      requires base.audio.Valid()
      modifies this`peers, base.audio`outputs, base.audio`nextHandle
      ensures base.audio.Valid()
      ensures peerId in peers && peers[peerId] != 0 && peers[peerId] !in old(base.audio.outputs)
      ensures State() == AddPeerStep(old(State()), peerId, peers[peerId])
    {
      var sourceId := base.audio.SubscribeOutput();
      peers := peers[peerId := sourceId];
    }

    method RemovePeer(peerId: PeerKey)
      requires base.audio.Valid()
      modifies this`peers, base.audio`outputs
      ensures base.audio.Valid()
      ensures State() == RemovePeerStep(old(State()), peerId)
    {
      if peerId !in peers {
        return;
      }
      base.audio.UnsubscribeOutput(peers[peerId]);
      peers := peers - {peerId};
    }

    method HavePeer(peerId: PeerKey) returns (found: bool)
      ensures found <==> peerId in peers
    {
      found := peerId in peers;
    }

    method ClearPeers()
      requires base.audio.Valid()
      modifies this`peers, base.audio`outputs
      ensures base.audio.Valid()
      ensures State() == ClearPeersStep(old(State()))
    {
      ReleaseChannels(base.audio, peers);
      peers := map[];
    }

    /** The channel of a peer, or 0 for a peer not in the table. */
    method GetAlSource(peer: PeerKey) returns (h: Handle)
      ensures peer in peers ==> h == peers[peer]
      ensures peer !in peers ==> h == 0
    {
      var present := HavePeer(peer);
      if !present {
        return 0;
      }
      h := peers[peer];
    }

    /**
     ~ToxGroupCall gives back every channel in the table (the map goes
     with the object); then ~ToxCall runs.
     */
    method Destroy()
      requires base.audio.Valid()
      modifies this`peers, base`audioInConn, base`videoInConn
      modifies base.audio`outputs, base.audio`inputRefs, base.camera`refs
      ensures base.audio.Valid()
      ensures Snapshot(base.audio, base.camera) == GroupDestroy(old(State()), base.videoEnabled)
      ensures peers == map[] && !base.audioInConn
      ensures base.videoInConn == (old(base.videoInConn) && !base.videoEnabled)
    {
      ReleaseChannels(base.audio, peers);
      peers := map[];
      base.Destroy();
    }
  }

  /**
   A friend call that is built, made active, armed and disarmed, and
   destroyed leaves both device ledgers as it found them.
   */
  method FriendCallLifetime(friendNum: CallId, videoEnabled: bool, audio: Audio, camera: Camera)
    requires audio.Valid()
    modifies audio, camera
    ensures audio.Valid()
    ensures Snapshot(audio, camera) == old(Snapshot(audio, camera))
  {
    var call := new ToxFriendCall(friendNum, videoEnabled, audio, camera);
    ghost var h := call.alSource;
    var _ := ActivateAndRing(call, friendNum);
    call.Destroy();
    FriendLifecycleBalance(old(Snapshot(audio, camera)), videoEnabled, h, videoEnabled, h);
  }

  /**
   The part of a friend call's life that touches no device: it becomes
   active and is rung twice, then the ring is stopped. `ringing` is the
   timer between the second start and the stop.
   */
  method ActivateAndRing(call: ToxFriendCall, friendNum: CallId) returns (ringing: Timer)
    requires call.timer == NoTimer && !call.base.IsActive()
    modifies call`timer, call.base`active
    ensures ringing == Timer(friendNum, true)
    ensures call.base.IsActive() && call.timer == NoTimer
  {
    call.base.SetActive(true);
    call.StartTimeout(friendNum);
    call.StartTimeout(friendNum);
    ringing := call.timer;
    call.StopTimeout();
  }

  /**
   A group call with peers a and b, of which a is removed: looking a up
   then gives 0, looking b up gives the fresh channel subscribed for b,
   and destroying the call gives everything back.
   */
  method GroupCallLifetime(groupNum: int, a: PeerKey, b: PeerKey, audio: Audio, camera: Camera)
      returns (lookA: Handle, lookB: Handle)
    requires a != b && audio.Valid()
    modifies audio, camera
    ensures audio.Valid()
    ensures Snapshot(audio, camera) == old(Snapshot(audio, camera))
    ensures lookA == 0 && lookB != 0 && lookB !in old(audio.outputs)
  {
    ghost var l := Snapshot(audio, camera);
    var call := new ToxGroupCall(groupNum, audio, camera);
    JoinAndLeave(call, a, b, l);
    lookA, lookB := LookUpAfterLeave(call, a, b);
    call.Destroy();
  }

  /**
   Peers a and b join a group call freshly built on ledger l, then a
   leaves: a has no entry, b holds a fresh channel, and destroying the
   call now would restore l.
   */
  method JoinAndLeave(call: ToxGroupCall, a: PeerKey, b: PeerKey, ghost l: Ledger)
    requires a != b && call.base.audio.Valid() && call.State() == GroupCreate(l)
    modifies call`peers, call.base.audio`outputs, call.base.audio`nextHandle
    ensures call.base.audio.Valid()
    ensures a !in call.peers && b in call.peers
    ensures call.peers[b] != 0 && call.peers[b] !in old(call.base.audio.outputs)
    ensures GroupDestroy(call.State(), false) == l
  {
    ghost var s0 := call.State();
    call.AddPeer(a);
    ghost var ha := call.peers[a];
    call.AddPeer(b);
    ghost var hb := call.peers[b];
    call.RemovePeer(a);
    assert call.State() == RemovePeerStep(AddPeerStep(AddPeerStep(s0, a, ha), b, hb), a);
    JoinLeaveScenario(l, a, b, ha, hb);
  }

  /** After a has left and b has joined, looking a up gives 0 and b its own channel. */
  method LookUpAfterLeave(call: ToxGroupCall, a: PeerKey, b: PeerKey) returns (ha: Handle, hb: Handle)
    requires a !in call.peers && b in call.peers
    ensures ha == 0 && hb == call.peers[b]
  {
    ha := call.GetAlSource(a);
    hb := call.GetAlSource(b);
  }
}
