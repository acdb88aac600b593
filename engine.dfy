/**
  The native WebRTC engine, reduced to the handles the core talks to.

  A `ChannelHandle` stands for an `RTCDataChannel`: its ready state, its
  buffered byte count, whether its `send` throws, the log of what was sent,
  whether `close` was called, and which event handler properties are bound.
  A `PeerConnectionHandle` stands for an `RTCPeerConnection`: the requests the
  core made of it (create offer/answer, set local/remote description, add
  candidate), its current local description, and its bound handlers.

  Methods marked "engine side" are what the engine itself does; the core never
  calls them.
*/
module Engine {
  import opened Wrappers

  /** Data as a native channel carries it: binary or text. */
  datatype Chunk = Bytes(data: seq<bv8>) | Text(text: string)

  /** Number of bytes UTF-8 needs for one Unicode scalar value. */
  function CodePointBytes(c: char): (n: nat)
    ensures 1 <= n <= 4
  {
    if c as int < 0x80 then 1
    else if c as int < 0x800 then 2
    else if c as int < 0x1_0000 then 3
    else 4
  }

  /** Length of the UTF-8 encoding of `s`: at least one and at most four bytes per character. */
  function Utf8Length(s: string): (n: nat)
    ensures |s| <= n <= 4 * |s|
  {
    if s == [] then 0 else CodePointBytes(s[0]) + Utf8Length(s[1..])
  }

  /** What sending `c` adds to a channel's `bufferedAmount`. */
  function ByteLength(c: Chunk): nat {
    match c
    case Bytes(d) => |d|
    case Text(t) => Utf8Length(t)
  }

  /** JavaScript truthiness of a chunk: only the empty string is falsy (a buffer is an object). */
  predicate Truthy(c: Chunk) {
    !(c.Text? && c.text == [])
  }

  /** Identity of a completion callback handed to the core. */
  type Callback = nat

  /** One invocation of a callback: `cb(null)` or `cb(err)`. */
  datatype Completion<+E> = Completion(cb: Callback, error: Option<E>)

  datatype ReadyState = Connecting | Open | Closing | Closed

  datatype SdpType = Offer | PrAnswer | Answer | Rollback

  /** A session description: `{ type, sdp }`. */
  datatype Description = Description(sdpType: SdpType, sdp: string)

  /** An ICE candidate: `{ candidate, sdpMLineIndex, sdpMid }`. */
  datatype IceCandidate = IceCandidate(candidate: string, sdpMLineIndex: int, sdpMid: string)

  /** The dictionary handed to `new RTCSessionDescription(data)`: the signal's `type` and `sdp`. */
  datatype DescriptionInit = DescriptionInit(sdpType: Option<SdpType>, sdp: string)

  datatype IceConnectionState = New | Checking | Connected | Completed | Failed | Disconnected | Closed

  datatype IceGatheringState = GatheringNew | GatheringActive | GatheringComplete

  datatype SignalingState =
    | Stable | HaveLocalOffer | HaveRemoteOffer | HaveLocalPrAnswer | HaveRemotePrAnswer | SignalingClosed

  /** Handler properties of an `RTCDataChannel` (`onmessage`, `onopen`, ...). */
  datatype ChannelHandler = OnMessage | OnOpen | OnClose | OnError | OnBufferedAmountLow

  /** Handler properties of an `RTCPeerConnection`. */
  datatype ConnectionHandler =
    | OnIceConnectionStateChange | OnSignalingStateChange | OnIceCandidate
    | OnAddStream | OnDataChannel | OnNegotiationNeeded

  class ChannelHandle {
    /** The channel's `label` property. */
    const channelLabel: string
    /** `typeof bufferedAmountLowThreshold === 'number'`: the engine raises `bufferedamountlow`. */
    const lowThresholdSupported: bool
    var readyState: ReadyState
    var bufferedAmount: nat
    var bufferedAmountLowThreshold: nat
    /** When `Some(m)`, `send` throws an error with message `m`. */
    var sendFailure: Option<string>
    var sent: seq<Chunk>
    var closeRequested: bool
    /** A `close` scheduled by a timer that has not fired yet. */
    var closeDeferred: bool
    var handlers: set<ChannelHandler>

    constructor (channelLabel: string, lowThresholdSupported: bool)
      ensures this.channelLabel == channelLabel && this.lowThresholdSupported == lowThresholdSupported
      ensures readyState == Connecting && bufferedAmount == 0 && bufferedAmountLowThreshold == 0
      ensures sendFailure == None && sent == [] && !closeRequested && !closeDeferred && handlers == {}
    {
      this.channelLabel := channelLabel;
      this.lowThresholdSupported := lowThresholdSupported;
      readyState := Connecting;
      bufferedAmount := 0;
      bufferedAmountLowThreshold := 0;
      sendFailure := None;
      sent := [];
      closeRequested := false;
      closeDeferred := false;
      handlers := {};
    }

    /** `channel.send(c)` when it does not throw: queues `c` and grows the buffered count by its size. */
    method Send(c: Chunk)
      requires sendFailure.None?
      modifies this
      ensures sent == old(sent) + [c]
      ensures bufferedAmount == old(bufferedAmount) + ByteLength(c)
      ensures readyState == old(readyState) && sendFailure == old(sendFailure)
      ensures bufferedAmountLowThreshold == old(bufferedAmountLowThreshold)
      ensures closeRequested == old(closeRequested) && closeDeferred == old(closeDeferred)
      ensures handlers == old(handlers)
    {
      sent := sent + [c];
      bufferedAmount := bufferedAmount + ByteLength(c);
    }

    /** `channel.close()`, with any exception swallowed by the caller. */
    method Close()
      modifies this
      ensures closeRequested && closeDeferred == old(closeDeferred)
      ensures sent == old(sent) && bufferedAmount == old(bufferedAmount)
      ensures readyState == old(readyState) && sendFailure == old(sendFailure)
      ensures bufferedAmountLowThreshold == old(bufferedAmountLowThreshold) && handlers == old(handlers)
    {
      closeRequested := true;
    }

    /** Schedules `close()` on a timer. */
    method DeferClose()
      modifies this
      ensures closeDeferred && closeRequested == old(closeRequested)
      ensures sent == old(sent) && bufferedAmount == old(bufferedAmount)
      ensures readyState == old(readyState) && sendFailure == old(sendFailure)
      ensures bufferedAmountLowThreshold == old(bufferedAmountLowThreshold) && handlers == old(handlers)
    {
      closeDeferred := true;
    }

    /** Engine side: the close timer fires. */
    method DeferredCloseFires()
      requires closeDeferred
      modifies this
      ensures closeRequested && !closeDeferred
      ensures sent == old(sent) && handlers == old(handlers)
    {
      closeRequested := true;
      closeDeferred := false;
    }

    /** Binds (`attach`) or nulls the handler properties in `hs`. */
    method SetHandlers(hs: set<ChannelHandler>, attach: bool)
      modifies this
      ensures handlers == if attach then old(handlers) + hs else old(handlers) - hs
      ensures sent == old(sent) && bufferedAmount == old(bufferedAmount)
      ensures readyState == old(readyState) && sendFailure == old(sendFailure)
      ensures bufferedAmountLowThreshold == old(bufferedAmountLowThreshold)
      ensures closeRequested == old(closeRequested) && closeDeferred == old(closeDeferred)
    {
      handlers := if attach then handlers + hs else handlers - hs;
    }

    /** Engine side: the channel's state and buffer level change. */
    method EngineUpdate(r: ReadyState, buffered: nat, failure: Option<string>)
      modifies this
      ensures readyState == r && bufferedAmount == buffered && sendFailure == failure
      ensures sent == old(sent) && handlers == old(handlers)
      ensures bufferedAmountLowThreshold == old(bufferedAmountLowThreshold)
      ensures closeRequested == old(closeRequested) && closeDeferred == old(closeDeferred)
    {
      readyState := r;
      bufferedAmount := buffered;
      sendFailure := failure;
    }
  }

  class PeerConnectionHandle {
    var closed: bool
    var handlers: set<ConnectionHandler>
    /** Number of `createOffer` / `createAnswer` calls made. */
    var offerRequests: nat
    var answerRequests: nat
    /** Arguments of the `setLocalDescription` / `setRemoteDescription` / `addIceCandidate` calls made. */
    var localRequests: seq<Description>
    var remoteRequests: seq<DescriptionInit>
    var candidates: seq<IceCandidate>
    /** `pc.localDescription`: set by the engine once a local description is applied. */
    var localDescription: Option<Description>

    constructor ()
      ensures !closed && handlers == {} && offerRequests == 0 && answerRequests == 0
      ensures localRequests == [] && remoteRequests == [] && candidates == [] && localDescription == None
    {
      closed := false;
      handlers := {};
      offerRequests := 0;
      answerRequests := 0;
      localRequests := [];
      remoteRequests := [];
      candidates := [];
      localDescription := None;
    }

    /** `pc.close()`, with any exception swallowed by the caller. */
    method Close()
      modifies this`closed
      ensures closed
    {
      closed := true;
    }

    /** Binds (`attach`) or nulls the handler properties in `hs`. */
    method SetHandlers(hs: set<ConnectionHandler>, attach: bool)
      modifies this`handlers
      ensures handlers == if attach then old(handlers) + hs else old(handlers) - hs
    {
      handlers := if attach then handlers + hs else handlers - hs;
    }

    /** `pc.createOffer(success, failure)`: the engine answers later through one of the callbacks. */
    method CreateOffer()
      modifies this`offerRequests
      ensures offerRequests == old(offerRequests) + 1
    {
      offerRequests := offerRequests + 1;
    }

    /** `pc.createAnswer(success, failure)`. */
    method CreateAnswer()
      modifies this`answerRequests
      ensures answerRequests == old(answerRequests) + 1
    {
      answerRequests := answerRequests + 1;
    }

    /** `pc.setLocalDescription(d, noop, failure)`. */
    method SetLocalDescription(d: Description)
      modifies this`localRequests
      ensures localRequests == old(localRequests) + [d]
    {
      localRequests := localRequests + [d];
    }

    /** `pc.setRemoteDescription(new RTCSessionDescription(init), success, failure)`. */
    method SetRemoteDescription(init: DescriptionInit)
      modifies this`remoteRequests
      ensures remoteRequests == old(remoteRequests) + [init]
    {
      remoteRequests := remoteRequests + [init];
    }

    /** `pc.addIceCandidate(c, noop, failure)`. */
    method AddIceCandidate(c: IceCandidate)
      modifies this`candidates
      ensures candidates == old(candidates) + [c]
    {
      candidates := candidates + [c];
    }

    /** Engine side: a local description is applied. */
    method EngineSetLocal(d: Option<Description>)
      modifies this`localDescription
      ensures localDescription == d
    {
      localDescription := d;
    }
  }
}
