/**
 The shared device services a call session subscribes to: the audio
 singleton (one capture input, many playback outputs) and the camera
 singleton. Their internals are not part of this model; each is a ledger
 that records every subscribe and unsubscribe a call performs.
 */
module Devices {

  /** An audio output (playback) channel handle. 0 is the "no channel" value. */
  type Handle = nat

  /** A snapshot of both ledgers: the quantities a call session changes. */
  datatype Ledger = Ledger(inputRefs: int, outputs: multiset<Handle>, cameraRefs: int)

  /** The audio service. */
  class Audio {
    /** Net number of audio-input subscriptions (subscribes minus unsubscribes). */
    var inputRefs: int
    /** The output channels currently subscribed, with multiplicity. */
    var outputs: multiset<Handle>
    /** Every handle ever handed out is below this bound, so it is fresh. */
    var nextHandle: nat

    ghost predicate Valid()
      reads this
    {
      0 < nextHandle && forall h :: h in outputs ==> 0 < h < nextHandle
    }

    /** A service no call has subscribed to yet. */
    constructor ()
      ensures Valid() && inputRefs == 0 && outputs == multiset{}
    {
      inputRefs, outputs, nextHandle := 0, multiset{}, 1;
    }

    method SubscribeInput()
      modifies this`inputRefs
      ensures inputRefs == old(inputRefs) + 1
    {
      inputRefs := inputRefs + 1;
    }

    method UnsubscribeInput()
      modifies this`inputRefs
      ensures inputRefs == old(inputRefs) - 1
    {
      inputRefs := inputRefs - 1;
    }

    /** Hands out a new output channel that no current subscription uses. */
    method SubscribeOutput() returns (h: Handle)
      requires Valid()
      modifies this`outputs, this`nextHandle
      ensures Valid()
      ensures h != 0 && h !in old(outputs)
      ensures outputs == old(outputs) + multiset{h}
    {
      h := nextHandle;
      outputs := outputs + multiset{h};
      nextHandle := nextHandle + 1;
    }

    /** Gives one subscription of channel h back; a handle not subscribed leaves the ledger as it is. */
    method UnsubscribeOutput(h: Handle)
      requires Valid()
      modifies this`outputs
      ensures Valid()
      ensures outputs == old(outputs) - multiset{h}
    {
      outputs := outputs - multiset{h};
    }
  }

  /** The camera service. */
  class Camera {
    /** Net number of camera subscriptions. */
    var refs: int
    /** False while no capture device is set up (the source's isNone()). */
    var configured: bool

    /** No subscription and no capture device set up yet. */
    constructor ()
      ensures refs == 0 && !configured
    {
      refs, configured := 0, false;
    }

    function IsNone(): bool
      reads this
    {
      !configured
    }

    method SetupDefault()
      modifies this`configured
      ensures configured
    {
      configured := true;
    }

    method Subscribe()
      modifies this`refs
      ensures refs == old(refs) + 1
    {
      refs := refs + 1;
    }

    method Unsubscribe()
      modifies this`refs
      ensures refs == old(refs) - 1
    {
      refs := refs - 1;
    }
  }

  /** The ledger of both services as one value. */
  function Snapshot(audio: Audio, camera: Camera): Ledger
    reads audio, camera
  {
    Ledger(audio.inputRefs, audio.outputs, camera.refs)
  }
}
