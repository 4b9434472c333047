# Call-session resource bookkeeping of qTox (`src/core/toxcall.cpp`)

This project models how a qTox call session claims shared devices and
gives them back. It covers:

- `ToxCall`: the state common to every call.
- `ToxFriendCall`: a one-to-one call. It holds one audio-input
  subscription, one output channel (`alSource`), an optional camera
  subscription and a lazily created ring timeout.
- `ToxGroupCall`: a group call. It holds one audio-input subscription and
  a peer table that maps each peer's public key to the output channel
  subscribed for that peer.

The audio and camera singletons are modelled as ledgers (`Devices.Audio`,
`Devices.Camera`). Each ledger records the net audio-input count, the
multiset of subscribed output channels and the net camera count. The
audio service hands out an output channel that no current subscription
uses, and that channel is never 0. The value 0 is the "no channel" value
that `getAlSource` returns.

The project has two layers:

- The classes in `toxcall.dfy` work like the source: fields updated in
  place, a `Destroy` method for each destructor, and a loop that releases
  the peer table.
- Their contracts tie each new state to pure functions: `CallLedger` for
  construction and destruction, `GroupPeers` for the peer table and
  `Timeout` for the timer. The balance properties are proved as lemmas
  about those functions.

Destroy runs the derived part first and then the base part, as C++
destructors do. In `ToxFriendCall.Destroy` the owned `QTimer` is
discarded as a member. In `ToxGroupCall.Destroy` the table is discarded
with the object.

Behaviour the model keeps, because the code has it:

- **`setVideoEnabled` between construction and destruction.** The
  constructor subscribes the camera if video is enabled at that time.
  `~ToxCall` unsubscribes the camera if video is enabled at its own time.
  So the camera count is restored exactly when the flag did not change
  (`FriendLifecycleBalance`).
- **`setAlSource` between construction and destruction.** The destructor
  gives back whatever channel `alSource` holds at that time. If it was
  replaced, the original channel stays subscribed and the replacement is
  given back (`FriendReplacedSourceLeaks`).
- **`addPeer` for a key already in the table.** The old map entry is
  overwritten without an unsubscribe. That channel stays subscribed for
  good. `GroupLifecycle` proves that a group call restores the ledger
  exactly when no `addPeer` duplicated a key. When one did, the leftover
  is exactly the overwritten channels (`Orphaned`). The model keeps this
  policy; it does not deduplicate.
- **Group calls and the camera.** A group call is built with video off,
  so it never subscribes the camera. `setVideoEnabled(true)` on a group
  call would still make `~ToxCall` unsubscribe it (`ToxGroupCall.Destroy`
  passes the flag's value at that time).

Destruction does not release what the session acquired. It releases what
the fields name at destruction time, and the model follows the code.

The class declaration (`toxcall.h`) is not part of this model. The model
makes these assumptions about it:

- `active`, `muteVol`, `muteMic` and `nullVideoBitrate` start false.
- The peer state starts at 0 (`TOXAV_FRIEND_CALL_STATE_NONE`).
- There is no timer at first.

## Model

| member | source | states |
|---|---|---|
| Devices.Audio.SubscribeInput | src/core/toxcall.cpp:119 | the audio-input count rises by one |
| Devices.Audio.UnsubscribeInput | src/core/toxcall.cpp:42 | the audio-input count falls by one |
| Devices.Audio.SubscribeOutput | src/core/toxcall.cpp:130 | hands out a nonzero channel that no current subscription uses and adds it to the subscribed channels |
| Devices.Audio.UnsubscribeOutput | src/core/toxcall.cpp:154 | takes one subscription of the given channel out of the subscribed channels |
| Devices.Camera.SetupDefault | src/core/toxcall.cpp:137-139 | afterwards a capture device is configured |
| Devices.Camera.Subscribe | src/core/toxcall.cpp:140 | the camera count rises by one |
| Devices.Camera.Unsubscribe | src/core/toxcall.cpp:45 | the camera count falls by one |
| CallLedger.FriendLifecycleBalance | src/core/toxcall.cpp:114-155 | building a friend call and destroying it always restores the input count; it restores the camera count iff the video flag is the same at both times; it restores the whole ledger iff the flag and alSource are both unchanged |
| CallLedger.FriendReplacedSourceLeaks | src/core/toxcall.cpp:109-112 | if alSource was replaced by another owner's channel, destruction keeps the call's own channel subscribed and takes one subscription away from that other channel |
| CallLedger.AcquireInput | src/core/toxcall.cpp:119 | the audio-input count rises by one; output channels and camera count are unchanged |
| CallLedger.AcquireCamera | src/core/toxcall.cpp:133-140 | with video enabled the camera count rises by one; with video off the ledger is unchanged; input and outputs are never touched |
| CallLedger.ReleaseBase | src/core/toxcall.cpp:37-47 | ~ToxCall lowers the input count by one, lowers the camera count by one exactly when video is enabled at that time, and leaves the output channels alone |
| CallLedger.FriendAcquire | src/core/toxcall.cpp:114-149 | the friend-call constructor raises the input count by one, adds one subscription of its channel, and raises the camera count by one exactly when video is on |
| CallLedger.FriendRelease | src/core/toxcall.cpp:151-155 | ~ToxFriendCall then ~ToxCall: one subscription of the current alSource is given back (none if it is not subscribed), the input count falls by one, the camera count falls by one exactly when video is enabled then |
| CallLedger.GroupAcquire | src/core/toxcall.cpp:190-195 | the group-call constructor raises the input count by one and touches neither the output channels nor the camera |
| CallLedger.GroupCameraBalance | src/core/toxcall.cpp:37-47 | a group call takes no camera subscription, but ~ToxCall gives one back if the flag was switched on; building and destroying it restores the ledger iff the flag is still off |
| GroupPeers.Values | src/core/toxcall.cpp:211-213 | the multiset of channels the peer table holds; it is empty exactly when the table is |
| GroupPeers.ValuesMembers | src/core/toxcall.cpp:247-249 | every entry's channel is among the table's channels, and every one of them is some entry's channel |
| GroupPeers.ValuesRemove | src/core/toxcall.cpp:225-226 | removing any one key from the table removes exactly that key's channel from the multiset of the table's channels |
| GroupPeers.ValuesSize | src/core/toxcall.cpp:247-249 | the table holds one channel per entry |
| GroupPeers.ValuesUpdate | src/core/toxcall.cpp:234 | storing a channel under a key replaces only the channel that key held, if it held one |
| GroupPeers.AddPeerStep | src/core/toxcall.cpp:229-235 | after addPeer(p) with channel h, p maps to h, h is subscribed, and the input and camera counts are unchanged |
| GroupPeers.RemovePeerStep | src/core/toxcall.cpp:216-227 | after removePeer(p), p is not in the table, and the input and camera counts are unchanged |
| GroupPeers.ClearPeersStep | src/core/toxcall.cpp:243-252 | after clearPeers the table is empty, no channel was subscribed, and the input and camera counts are unchanged |
| GroupPeers.GroupCreate | src/core/toxcall.cpp:190-205 | a new group call has an empty table holding no channels, and the ledger gains one input subscription only |
| GroupPeers.GroupDestroy | src/core/toxcall.cpp:207-214 | ~ToxGroupCall then ~ToxCall: the table's channels are given back, the input count falls by one, and the camera count falls by one exactly when video is enabled then |
| GroupPeers.AddPeerEffect | src/core/toxcall.cpp:229-235 | after addPeer(p): p maps to the new channel, other entries are unchanged, the ledger holds one more channel and releases none, and a channel p already held drops out of the table while it stays subscribed |
| GroupPeers.RemovePeerEffect | src/core/toxcall.cpp:216-227 | removePeer(p) of an absent p changes nothing; for a present p, exactly p's channel is given back, only key p goes, p is then absent, and the input and camera counts are unchanged |
| GroupPeers.ClearPeersEffect | src/core/toxcall.cpp:243-252 | clearPeers gives back exactly the table's channels, one per entry, and leaves the table empty |
| GroupPeers.StepKeepsOwnership | src/core/toxcall.cpp:216-252 | a single table operation keeps the ledger equal to the extra channels plus the channels it orphaned plus the table's channels |
| GroupPeers.RunKeepsOwnership | src/core/toxcall.cpp:216-252 | any run of table operations keeps the ledger equal to the extra channels plus the orphaned channels plus the table's channels; the input and camera counts are untouched |
| GroupPeers.OrphanedEmpty | src/core/toxcall.cpp:229-235 | no channel is orphaned iff no addPeer names a key already in the table |
| GroupPeers.GroupLifecycle | src/core/toxcall.cpp:190-214 | a group call built, run through any table operations and destroyed leaves the ledger plus exactly the orphaned channels; so it restores the ledger iff no addPeer duplicated a key |
| GroupPeers.ReachableClear | src/core/toxcall.cpp:243-252 | in every group call reached from construction by table operations, the table's channels are all subscribed, so clearPeers gives back exactly one channel per entry |
| GroupPeers.JoinLeaveScenario | src/core/toxcall.cpp:216-262 | after peers a and b join and a leaves, a has no entry, b keeps its channel, and destruction restores the ledger |
| Timeout.Start | src/core/toxcall.cpp:157-169 | startTimeout leaves a running timer; its id is the one bound when the timer was created, or the given id if there was no timer; a timer that is already running is left as it is |
| Timeout.Stop | src/core/toxcall.cpp:171-178 | stopTimeout leaves no timer, whether or not there was one |
| Timeout.StartTwice | src/core/toxcall.cpp:159-168 | a second startTimeout, with any id, changes nothing: no second timer and no rebinding |
| Timeout.StopThenStart | src/core/toxcall.cpp:171-178 | after stopTimeout, the next startTimeout creates a running timer bound to the new id |
| Timeout.ReplayMeaning | src/core/toxcall.cpp:157-178 | after any history of calls, a timer exists iff some startTimeout has no later stopTimeout; such a timer is running and bound to the id of the earliest such startTimeout |
| ToxCalls.ToxCall.constructor | src/core/toxcall.cpp:31-35 | records the video flag and the two services; nothing is subscribed and no handler is connected |
| ToxCalls.ToxCall.SetActive | src/core/toxcall.cpp:49-57 | changes only `active`; isActive then returns the new value |
| ToxCalls.ToxCall.SetMuteVol | src/core/toxcall.cpp:59-67 | changes only `muteVol`; getMuteVol then returns the new value |
| ToxCalls.ToxCall.SetMuteMic | src/core/toxcall.cpp:69-77 | changes only `muteMic`; getMuteMic then returns the new value |
| ToxCalls.ToxCall.SetVideoEnabled | src/core/toxcall.cpp:79-87 | changes only `videoEnabled`, with no device subscribed or given back; getVideoEnabled then returns the new value |
| ToxCalls.ToxCall.SetNullVideoBitrate | src/core/toxcall.cpp:89-97 | changes only `nullVideoBitrate`; getNullVideoBitrate then returns the new value |
| ToxCalls.ToxCall.Destroy | src/core/toxcall.cpp:37-47 | disconnects audio input and gives it back; disconnects and unsubscribes the camera exactly when video is enabled at that moment |
| ToxCalls.ToxFriendCall.constructor | src/core/toxcall.cpp:114-149 | subscribes the input and one fresh output channel, which becomes alSource; only if video is enabled, it also configures the camera if needed, subscribes it, sets the video source and connects video; the timer is absent |
| ToxCalls.ToxFriendCall.SetAlSource | src/core/toxcall.cpp:104-112 | changes only `alSource`, with no channel subscribed or given back; getAlSource then returns the new value |
| ToxCalls.ToxFriendCall.SetState | src/core/toxcall.cpp:180-188 | changes only the peer state; getState then returns it |
| ToxCalls.ToxFriendCall.StartTimeout | src/core/toxcall.cpp:157-169 | the timer afterwards is Timeout.Start of the timer before |
| ToxCalls.ToxFriendCall.StopTimeout | src/core/toxcall.cpp:171-178 | no timer is left; with no timer before, nothing changes |
| ToxCalls.ToxFriendCall.Destroy | src/core/toxcall.cpp:151-155 | gives back the channel alSource holds at that moment, drops the timer, then runs the base destructor |
| ToxCalls.ReleaseChannels | src/core/toxcall.cpp:211-213 | the loop over the table gives back exactly the table's channels |
| ToxCalls.ToxGroupCall.constructor | src/core/toxcall.cpp:190-205 | builds the base part with video off, subscribes the input and connects audio; the table starts empty; the camera is untouched |
| ToxCalls.ToxGroupCall.AddPeer | src/core/toxcall.cpp:229-235 | subscribes a fresh nonzero channel and stores it under the key, overwriting whatever the key held (GroupPeers.AddPeerStep) |
| ToxCalls.ToxGroupCall.RemovePeer | src/core/toxcall.cpp:216-227 | the table and ledger afterwards are GroupPeers.RemovePeerStep of those before |
| ToxCalls.ToxGroupCall.HavePeer | src/core/toxcall.cpp:237-241 | true exactly when the key is in the table |
| ToxCalls.ToxGroupCall.ClearPeers | src/core/toxcall.cpp:243-252 | gives back every table channel and empties the table (GroupPeers.ClearPeersStep) |
| ToxCalls.ToxGroupCall.GetAlSource | src/core/toxcall.cpp:254-262 | returns the peer's channel, or 0 for a peer not in the table; changes nothing |
| ToxCalls.ToxGroupCall.Destroy | src/core/toxcall.cpp:207-214 | gives back every table channel and empties the table, then runs the base destructor (GroupPeers.GroupDestroy): the audio input is disconnected, and the video connection is cleared exactly when video is enabled at that time |
| ToxCalls.FriendCallLifetime | src/core/toxcall.cpp:114-178 | a friend call built, activated, rung twice, stopped and destroyed leaves both ledgers as it found them |
| ToxCalls.ActivateAndRing | src/core/toxcall.cpp:157-178 | after setActive(true) (lines 54-57), two startTimeout calls and a stopTimeout, the call is active and has no timer; the timer returned from between the second start and the stop is the one running timer, bound to the call's id |
| ToxCalls.GroupCallLifetime | src/core/toxcall.cpp:190-262 | in a group call where a and b join and a leaves, getAlSource gives 0 for a and, for b, a nonzero channel that was not subscribed before; destruction leaves both ledgers as they were |
| ToxCalls.JoinAndLeave | src/core/toxcall.cpp:216-235 | after a and b join a new group call and a leaves, a has no entry, b holds a fresh nonzero channel, and destruction would then restore the ledger the call was built on |
| ToxCalls.LookUpAfterLeave | src/core/toxcall.cpp:254-262 | getAlSource gives 0 for a peer that left and the table's channel for a peer that is present |

## Left out

- The Qt signal connections and the forwarding lambdas (`sendCallAudio`, `sendGroupCallAudio`, `sendCallVideo`, `timeoutCall`) are left out, because frame delivery is asynchronous and carries raw buffers. Each connection is a boolean that the constructor sets and the destructor clears. A connection is taken to succeed, since the code only logs a failure.
- The internals of the `Audio`, `CameraSource` and `CoreAV` singletons are not part of this model. The services are ledgers that count one subscribe and one unsubscribe. Giving back a channel that is not subscribed leaves the output multiset unchanged.
- `Devices.Audio.SubscribeOutput`: the handle is an unbounded natural number, not a 32-bit `quint32`. The service's own allocation scheme is not visible. Freshness and the nonzero value are assumptions the model makes about it.
- The `QTimer` duration (`CALL_TIMEOUT`) and its firing are left out, because they are driven by the event loop. The model keeps only whether the timer exists, whether it is running, and the id bound into its callback.
- The `CoreVideoSource` allocation is reduced to a flag, because its deletion is not visible in this file. The camera's `isNone`/`setupDefault` is a single "configured" flag set before `subscribe`.
- Logging (`qDebug`, `qWarning`) is left out.
- Threading is left out. The code has no synchronisation of its own.
- The peer table loop in `ReleaseChannels` takes the keys in an arbitrary order, not `QMap`'s ascending key order. The multiset released is the same either way.
- `ToxCall` is modelled by composition rather than inheritance: the derived classes hold it as `base`. Its accessors are reached through `base`.
