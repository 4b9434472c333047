/**
 What constructing and destroying a call session does to the device
 ledger, as functions on Ledger values, and the balance properties of a
 whole call lifetime.
 */
module CallLedger {
  import opened Devices

  /** One audio-input subscription. */
  function AcquireInput(l: Ledger): (r: Ledger)
    ensures r.inputRefs == l.inputRefs + 1
    ensures r.outputs == l.outputs && r.cameraRefs == l.cameraRefs
  {
    l.(inputRefs := l.inputRefs + 1)
  }

  /** One camera subscription, taken only when video is enabled at construction. */
  function AcquireCamera(l: Ledger, videoEnabled: bool): (r: Ledger)
    ensures videoEnabled ==> r.cameraRefs == l.cameraRefs + 1
    ensures !videoEnabled ==> r == l
    ensures r.inputRefs == l.inputRefs && r.outputs == l.outputs
  {
    if videoEnabled then l.(cameraRefs := l.cameraRefs + 1) else l
  }

  /** ~ToxCall: the input is given back, the camera only if video is enabled at that moment. */
  function ReleaseBase(l: Ledger, videoEnabled: bool): (r: Ledger)
    ensures r.inputRefs == l.inputRefs - 1
    ensures r.cameraRefs == (if videoEnabled then l.cameraRefs - 1 else l.cameraRefs)
    ensures r.outputs == l.outputs
  {
    var l' := l.(inputRefs := l.inputRefs - 1);
    if videoEnabled then l'.(cameraRefs := l'.cameraRefs - 1) else l'
  }

  /** The friend-call constructor: input, output channel h, and the camera if video is on. */
  function FriendAcquire(l: Ledger, videoEnabled: bool, h: Handle): (r: Ledger)
    ensures r.inputRefs == l.inputRefs + 1
    ensures r.outputs == l.outputs + multiset{h} && r.outputs[h] == l.outputs[h] + 1
    ensures r.cameraRefs == (if videoEnabled then l.cameraRefs + 1 else l.cameraRefs)
  {
    AcquireCamera(AcquireInput(l).(outputs := l.outputs + multiset{h}), videoEnabled)
  }

  /** ~ToxFriendCall (the channel alSource holds now) followed by ~ToxCall. */
  function FriendRelease(l: Ledger, alSource: Handle, videoEnabled: bool): (r: Ledger)
    ensures r.inputRefs == l.inputRefs - 1
    ensures r.outputs == l.outputs - multiset{alSource}
    ensures alSource in l.outputs ==> r.outputs[alSource] == l.outputs[alSource] - 1
    ensures r.cameraRefs == (if videoEnabled then l.cameraRefs - 1 else l.cameraRefs)
  {
    ReleaseBase(l.(outputs := l.outputs - multiset{alSource}), videoEnabled)
  }

  /** The group-call constructor: the input only; the base is built with video off. */
  function GroupAcquire(l: Ledger): (r: Ledger)
    ensures r == l.(inputRefs := l.inputRefs + 1)
  {
    AcquireCamera(AcquireInput(l), false)
  }

  /**
   A friend call built with video flag v0 and channel h0, destroyed when
   its flag is v1 and its alSource is h1, leaves the ledger exactly as it
   found it if and only if neither changed in between. The input count is
   balanced in every case; the camera count exactly when v0 == v1.
   */
  lemma FriendLifecycleBalance(l: Ledger, v0: bool, h0: Handle, v1: bool, h1: Handle)
    ensures FriendRelease(FriendAcquire(l, v0, h0), h1, v1).inputRefs == l.inputRefs
    ensures FriendRelease(FriendAcquire(l, v0, h0), h1, v1).cameraRefs == l.cameraRefs <==> v0 == v1
    ensures FriendRelease(FriendAcquire(l, v0, h0), h1, v1) == l <==> v0 == v1 && h0 == h1
  {
  }

  /**
   A friend call whose alSource was replaced by a channel h1 of another
   owner gives that owner's channel back and keeps its own h0 subscribed.
   */
  lemma FriendReplacedSourceLeaks(l: Ledger, v: bool, h0: Handle, h1: Handle)
    requires h0 != h1 && h1 in l.outputs
    ensures h0 in FriendRelease(FriendAcquire(l, v, h0), h1, v).outputs
    ensures FriendRelease(FriendAcquire(l, v, h0), h1, v).outputs[h1] == l.outputs[h1] - 1
  {
  }

  /**
   A group call is built with video off, so it takes no camera
   subscription; ~ToxCall still gives one back if the flag was switched on
   in between. Building and destroying it restores the ledger exactly when
   the flag is still off.
   */
  lemma GroupCameraBalance(l: Ledger, v1: bool)
    ensures GroupAcquire(l).cameraRefs == l.cameraRefs && GroupAcquire(l).outputs == l.outputs
    ensures ReleaseBase(GroupAcquire(l), v1).cameraRefs == (if v1 then l.cameraRefs - 1 else l.cameraRefs)
    ensures ReleaseBase(GroupAcquire(l), v1) == l <==> !v1
  {
  }
}
