/**
  The `Peer` object of index.js: one WebRTC session over a native peer connection and
  one data channel. Its fields are the source's fields; `Abs` reads them as a
  `PeerSpec.PeerState`, and every method is proved to move that state exactly as the
  matching step function does. The engine's events and the outcomes of its
  asynchronous calls are the methods `On...`, called by the engine.
*/
module Peers {
  import opened Wrappers
  import opened Engine
  import opened Sdp
  import opened PeerSpec

  /** The connection handlers `_destroy` nulls. */
  const ConnectionHandlers: set<ConnectionHandler> := {OnIceConnectionStateChange, OnSignalingStateChange, OnIceCandidate}
  /** The channel handlers `_setupData` binds and `_destroy` nulls. */
  const ChannelHandlers: set<ChannelHandler> := {OnMessage, OnOpen, OnClose}

  class Peer {
    const initiator: bool
    const trickle: bool
    /** The flag `_write` tests before sending (`_channelReady` at index.js:244). */
    const gate: WriteGate
    /** The application listens for `error`. */
    const errorListener: bool
    var destroyed: bool
    var connected: bool
    var pcReady: bool
    var channelReady: bool
    var iceComplete: bool
    /** The offers/answers whose `signal` waits on `once('_iceComplete', ...)`. */
    var awaiting: seq<Description>
    /** The `once` wrapper around `_createOffer` has been called. */
    var negotiationCalled: bool
    var pc: PeerConnectionHandle?
    var channel: ChannelHandle?
    var channelName: Option<string>
    /** `_buffer`: writes made before the peer connected. */
    var buffer: seq<Outbound>
    /** Events emitted and callbacks invoked. */
    var emitted: seq<PeerEvent>
    var completions: seq<Completion<PeerError>>
    /** The error `_destroy` threw because nobody listens for `error`. */
    var escaped: Option<PeerError>
    /** Calls made on the native handles, chunks handed to the channel, and writes accepted. */
    ghost var requests: seq<EngineRequest>
    ghost var sent: seq<Outbound>
    ghost var accepted: seq<Outbound>

    ghost function Abs(): PeerState
      reads this
    {
      PeerState(Config(initiator, trickle, gate, errorListener), destroyed, Readiness(pcReady, channelReady, connected),
        IceProgress(iceComplete, awaiting), negotiationCalled,
        if channel == null then None else Some(channel.channelLabel), channelName, buffer,
        Log(emitted, completions, requests, sent, accepted, escaped))
    }

    /** The connection is held exactly while the peer is live, and the bound channel carries
        the peer's handlers. */
    ghost predicate Valid()
      reads this, channel
    {
      && Inv(Abs())
      && (pc == null <==> destroyed)
      && (channel != null ==> ChannelHandlers <= channel.handlers)
    }

    /** The bound channel's `send` does not throw (index.js does not catch it). */
    predicate SendsAccepted()
      reads this, channel
    {
      channel != null ==> channel.sendFailure.None?
    }

    /** `pc.localDescription`, read when an offer or answer is signalled. */
    function LocalNow(): Option<Description>
      reads this, pc
    {
      if pc == null then None else pc.localDescription
    }

    /** `new Peer(opts)`: a fresh connection with its handlers; an initiator opens its data
        channel (labelled with the channel name) and asks for an offer at once when
        `negotiateNow` (engines that do not raise `negotiationneeded` themselves). */
    constructor (initiator: bool, trickle: bool, gate: WriteGate, errorListener: bool, name: Option<string>, negotiateNow: bool)
      ensures Valid() && Abs() == Initial(Config(initiator, trickle, gate, errorListener), name, negotiateNow)
      ensures fresh(pc) && !pc.closed
      ensures pc.handlers == ConnectionHandlers + {OnAddStream} + (if initiator then {OnNegotiationNeeded} else {ConnectionHandler.OnDataChannel})
      ensures pc.offerRequests == if initiator && negotiateNow then 1 else 0
      ensures initiator ==> fresh(channel) && channel.handlers == ChannelHandlers
    {
      this.initiator := initiator;
      this.trickle := trickle;
      this.gate := gate;
      this.errorListener := errorListener;
      destroyed := false;
      connected := false;
      pcReady := false;
      channelReady := false;
      iceComplete := false;
      awaiting := [];
      negotiationCalled := false;
      channel := null;
      channelName := name;
      buffer := [];
      emitted := [];
      completions := [];
      escaped := None;
      requests := [];
      sent := [];
      accepted := [];
      var connection := new PeerConnectionHandle();
      connection.SetHandlers(ConnectionHandlers + {OnAddStream}, true);
      pc := connection;
      new;
      ghost var cfg := Config(initiator, trickle, gate, errorListener);
      ghost var s0 := PeerState(cfg, false, NotReady, IceProgress(false, []), false, None, name, [], Log([], [], [], [], [], None));
      assert Abs() == s0;
      InitialInv(cfg, name, negotiateNow);
      if initiator {
        Initiate(name, negotiateNow);
        assert Abs() == Initial(cfg, name, negotiateNow);
      } else {
        pc.SetHandlers({ConnectionHandler.OnDataChannel}, true);
        assert Abs() == s0 == Initial(cfg, name, negotiateNow);
      }
    }

    /** The initiator's part of the constructor: open the data channel, listen for
        `negotiationneeded`, and ask for an offer at once when `negotiateNow`. */
    method Initiate(name: Option<string>, negotiateNow: bool)
      requires Valid() && initiator && !destroyed && !negotiationCalled && !pc.closed
      modifies this, pc
      ensures Valid() && pc == old(pc) && !pc.closed
      ensures Abs() == (var bound := SetupDataStep(old(Abs()), LabelFor(name));
                        if negotiateNow then NegotiationStep(bound) else bound)
      ensures pc.handlers == old(pc.handlers) + {OnNegotiationNeeded}
      ensures pc.offerRequests == old(pc.offerRequests) + (if negotiateNow then 1 else 0)
      ensures fresh(channel) && channel.handlers == ChannelHandlers
    {
      var h := new ChannelHandle(LabelFor(name), false);
      SetupData(h);
      pc.SetHandlers({OnNegotiationNeeded}, true);
      if negotiateNow {
        NegotiationNeeded();
      }
    }

    /** `_setupData`: binds `h` as the channel and takes its label as the channel name. */
    method SetupData(h: ChannelHandle)
      requires Valid()
      modifies this`channel, this`channelName, h
      ensures Valid() && Abs() == SetupDataStep(old(Abs()), h.channelLabel)
      ensures channel == h && h.handlers == old(h.handlers) + ChannelHandlers
      ensures h.sent == old(h.sent) && h.sendFailure == old(h.sendFailure)
    {
      channel := h;
      channelName := Some(h.channelLabel);
      h.SetHandlers(ChannelHandlers, true);
    }

    /** `ondatachannel`, bound only on the answering side (and never unbound). */
    method OnDataChannel(h: ChannelHandle)
      requires Valid() && !initiator
      modifies this, h
      ensures Valid() && Abs() == Step(old(Abs()), DataChannelAnnounced(h.channelLabel))
    {
      SetupData(h);
    }

    /** `onnegotiationneeded`, that is `once(_createOffer)`. */
    method NegotiationNeeded()
      requires Valid() && initiator
      modifies this`negotiationCalled, this`requests, pc
      ensures Valid() && Abs() == NegotiationStep(old(Abs()))
      ensures pc != null ==> pc.closed == old(pc.closed) && pc.handlers == old(pc.handlers)
      ensures pc != null ==> pc.offerRequests == old(pc.offerRequests) + (if old(negotiationCalled) then 0 else 1)
    {
      if !negotiationCalled {
        negotiationCalled := true;
        CreateOffer();
      }
    }

    /** `_createOffer`. */
    method CreateOffer()
      requires Valid()
      modifies this`requests, pc
      ensures Valid() && Abs() == CreateOfferStep(old(Abs()))
      ensures pc != null ==> pc.closed == old(pc.closed) && pc.handlers == old(pc.handlers)
      ensures pc != null ==> pc.offerRequests == old(pc.offerRequests) + 1
    {
      if destroyed {
        return;
      }
      pc.CreateOffer();
      requests := requests + [CreateOfferRequest];
    }

    /** `_createAnswer`. */
    method CreateAnswer()
      requires Valid()
      modifies this`requests, pc
      ensures Valid() && Abs() == CreateAnswerStep(old(Abs()))
      ensures pc != null ==> pc.closed == old(pc.closed) && pc.handlers == old(pc.handlers)
      ensures pc != null ==> pc.answerRequests == old(pc.answerRequests) + 1
    {
      if destroyed {
        return;
      }
      pc.CreateAnswer();
      requests := requests + [CreateAnswerRequest];
    }

    /** `destroy(onclose)`. */
    method Destroy(onclose: Option<Callback>)
      requires Valid()
      modifies this, pc, channel
      ensures Valid() && Abs() == DestroyStep(old(Abs()), None, onclose)
    {
      DestroyWith(None, onclose);
    }

    /** `_destroy(err, onclose)`. */
    method DestroyWith(err: Option<PeerError>, onclose: Option<Callback>)
      requires Valid()
      modifies this, pc, channel
      ensures Valid() && Abs() == DestroyStep(old(Abs()), err, onclose)
      ensures destroyed && !connected && pc == null && (channel == null || channel == old(channel))
      ensures !old(destroyed) ==> old(pc).closed && old(pc).handlers == old(pc.handlers) - ConnectionHandlers
      ensures !old(destroyed) && old(channel) != null ==>
        old(channel).closeRequested && old(channel).handlers == old(channel.handlers) - ChannelHandlers
      ensures old(channel) != null ==> old(channel).sent == old(channel.sent)
    {
      if destroyed {
        return;
      }
      ghost var s0 := Abs();
      ReleaseHandles();
      MarkDestroyed();
      AnnounceClose(err, onclose);
      assert Abs() == DestroyStep(s0, err, onclose);
      DestroyKeepsInv(s0, err, onclose);
    }

    /** Sets `destroyed` and clears the three readiness flags. */
    method MarkDestroyed()
      modifies this`destroyed, this`connected, this`pcReady, this`channelReady
      ensures Abs() == old(Abs()).(destroyed := true, readiness := NotReady)
    {
      destroyed := true;
      connected := false;
      pcReady := false;
      channelReady := false;
    }

    /** Emits `error` (when given) and `close`, whose one-time listener `onclose` runs; with
        no `error` listener, the `error` emit throws `err` instead and nothing is delivered. */
    method AnnounceClose(err: Option<PeerError>, onclose: Option<Callback>)
      modifies this`emitted, this`completions, this`escaped
      ensures Abs() == old(Abs()).(log := old(Abs()).log.(
        emitted := old(emitted) + DestroyEvents(err, errorListener),
        completions := old(completions) +
          (if onclose.Some? && !DestroyThrows(err, errorListener) then [Completion(onclose.value, None)] else []),
        escaped := if DestroyThrows(err, errorListener) then err else old(escaped)))
    {
      if DestroyThrows(err, errorListener) {
        escaped := err;
        return;
      }
      if err.Some? {
        emitted := emitted + [ErrorEvent(err.value)];
      }
      emitted := emitted + [CloseEvent];
      if onclose.Some? {
        completions := completions + [Completion(onclose.value, None)];
      }
    }

    /** Closes the connection and the channel, nulls the handlers on both and lets go of them. */
    method ReleaseHandles()
      requires pc != null
      modifies this`pc, this`channel, this`requests, pc, channel
      ensures pc == null && Abs() == old(Abs()).(channel := None, log := old(Abs()).log.(requests := requests))
      ensures requests == old(requests) + [ClosePeerConnection] + (if old(channel) != null then [CloseChannel] else [])
      ensures old(pc).closed && old(pc).handlers == old(pc.handlers) - ConnectionHandlers
      ensures old(channel) != null ==> old(channel).closeRequested && old(channel).handlers == old(channel.handlers) - ChannelHandlers
      ensures old(channel) != null ==> old(channel).sent == old(channel.sent)
    {
      pc.Close();
      pc.SetHandlers(ConnectionHandlers, false);
      requests := requests + [ClosePeerConnection];
      if channel != null {
        channel.Close();
        channel.SetHandlers(ChannelHandlers, false);
        requests := requests + [CloseChannel];
      }
      pc := null;
      channel := null;
    }

    /** `send(chunk, cb)`, that is `_write(chunk, undefined, cb || noop)`. */
    method Send(c: Outbound, cb: Option<Callback>)
      requires Valid() && SendsAccepted()
      modifies this, channel
      ensures Valid() && Abs() == WriteStep(old(Abs()), c, cb)
      ensures channel == old(channel)
      ensures channel != null ==>
        channel.sent == old(channel.sent) + (if !old(destroyed) && !Queues(old(Abs())) then [WireForm(c)] else [])
    {
      ghost var s0 := Abs();
      if destroyed {
        Complete(cb, Some(PeerError(WriteAfterDestroyMessage)));
      } else {
        Accept(c, cb);
      }
      WriteKeepsInv(s0, c, cb);
    }

    /** `_write` on a live peer: the chunk is queued while the gate is shut and handed to
        the channel otherwise; the callback is called with null either way. */
    method Accept(c: Outbound, cb: Option<Callback>)
      requires !destroyed && (Waiting() || (channel != null && channel.sendFailure.None?))
      modifies this`buffer, this`sent, this`accepted, this`completions, channel
      ensures Abs() == WriteStep(old(Abs()), c, cb)
      ensures channel != null ==>
        channel.sent == old(channel.sent) + (if Queues(old(Abs())) then [] else [WireForm(c)])
        && channel.handlers == old(channel.handlers)
    {
      if Waiting() {
        Enqueue(c);
      } else {
        Transmit(c);
      }
      Complete(cb, None);
    }

    /** The write gate is shut: `_write` queues. */
    predicate Waiting()
      reads this
    {
      match gate
      case ChannelReadyGate => !channelReady
      case ConnectedGate => !connected
    }

    /** `_buffer.push(chunk)`. */
    method Enqueue(c: Outbound)
      modifies this`buffer, this`accepted
      ensures Abs() == old(Abs()).(buffer := old(buffer) + [c], log := old(Abs()).log.(accepted := old(accepted) + [c]))
    {
      buffer := buffer + [c];
      accepted := accepted + [c];
    }

    /** `_channel.send(chunk)`, with the chunk in the form the channel takes. */
    method Transmit(c: Outbound)
      requires channel != null && channel.sendFailure.None?
      modifies this`sent, this`accepted, channel
      ensures Abs() == old(Abs()).(log := old(Abs()).log.(sent := old(sent) + [c], accepted := old(accepted) + [c]))
      ensures channel.sent == old(channel.sent) + [WireForm(c)] && channel.handlers == old(channel.handlers)
    {
      channel.Send(WireForm(c));
      sent := sent + [c];
      accepted := accepted + [c];
    }

    /** Calls `cb` with `err`; a missing callback is `noop`. */
    method Complete(cb: Option<Callback>, err: Option<PeerError>)
      modifies this`completions
      ensures Abs() == PeerSpec.CallBack(old(Abs()), cb, err)
    {
      if cb.Some? {
        completions := completions + [Completion(cb.value, err)];
      }
    }

    /** `_maybeReady`: on the edge where both sides are ready, sets `connected`, sends the
        queue, empties it and emits `connect`. */
    method MaybeReady()
      requires Valid() && SendsAccepted() && !destroyed
      modifies this, channel
      ensures Valid() && Abs() == MaybeReadyStep(old(Abs()))
      ensures channel == old(channel)
      ensures channel != null ==>
        channel.sent == old(channel.sent) + (if connected && !old(connected) then WireForms(old(buffer)) else [])
    {
      ghost var s0 := Abs();
      if !connected && pcReady && channelReady {
        connected := true;
        SendQueued();
        buffer := [];
        emitted := emitted + [ConnectEvent];
        assert Abs() == MaybeReadyStep(s0);
      }
      MaybeReadyKeepsInv(s0);
    }

    /** The `forEach` of `_maybeReady`: hands every queued chunk, in order, to the channel. */
    method SendQueued()
      requires channel != null && channel.sendFailure.None?
      modifies this`sent, channel
      ensures sent == old(sent) + buffer
      ensures channel.sent == old(channel.sent) + WireForms(buffer)
      ensures channel.handlers == old(channel.handlers) && channel.sendFailure == old(channel.sendFailure)
    {
      var i := 0;
      while i < |buffer|
        invariant 0 <= i <= |buffer|
        invariant sent == old(sent) + buffer[..i]
        invariant channel.sent == old(channel.sent) + WireForms(buffer[..i])
        invariant channel.handlers == old(channel.handlers) && channel.sendFailure == old(channel.sendFailure)
      {
        channel.Send(WireForm(buffer[i]));
        sent := sent + [buffer[i]];
        assert buffer[..i + 1] == buffer[..i] + [buffer[i]];
        WireFormsAppend(buffer[..i], [buffer[i]]);
        i := i + 1;
      }
      assert buffer[..i] == buffer;
    }

    /** Emits `e`. */
    method EmitEvent(e: PeerEvent)
      modifies this`emitted
      ensures Abs() == Emit(old(Abs()), e)
    {
      emitted := emitted + [e];
    }

    /** `signal(data)`: throws after destroy; otherwise applies a description, adds a
        candidate, or destroys the peer when the data has neither. `candidateError` is the
        message of the error `new RTCIceCandidate` throws, if any. */
    method Signal(data: SignalInput, candidateError: Option<string>) returns (r: Outcome<PeerError>)
      requires Valid()
      modifies this, pc, channel
      ensures Valid() && Abs() == SignalStep(old(Abs()), data, candidateError)
      ensures r == SignalOutcome(old(Abs()))
      ensures r.Fail? <==> old(destroyed)
    {
      if destroyed {
        return Fail(PeerError(SignalAfterDestroyMessage));
      }
      var d := SignalDataOf(data);
      ApplyRemote(d);
      AddCandidate(d, candidateError);
      if d.sdp == [] && d.candidate.None? {
        DestroyWith(Some(PeerError(InvalidSignalMessage)), None);
      }
      r := Pass;
    }

    /** The `sdp` branch of `signal`. */
    method ApplyRemote(d: SignalData)
      requires Valid() && !destroyed
      modifies this`requests, pc
      ensures Valid() && Abs() == ApplyRemoteStep(old(Abs()), d)
      ensures pc.remoteRequests == old(pc.remoteRequests) + if d.sdp != [] then [DescriptionInit(d.sdpType, d.sdp)] else []
    {
      ghost var s0 := Abs();
      if d.sdp != [] {
        pc.SetRemoteDescription(DescriptionInit(d.sdpType, d.sdp));
        requests := requests + [SetRemoteRequest(DescriptionInit(d.sdpType, d.sdp))];
      }
      ApplyRemoteKeepsInv(s0, d);
    }

    /** The `candidate` branch of `signal`, with its `try`/`catch`. */
    method AddCandidate(d: SignalData, candidateError: Option<string>)
      requires Valid() && !destroyed
      modifies this, pc, channel
      ensures Valid() && Abs() == AddCandidateStep(old(Abs()), d, candidateError)
      ensures (pc == null || pc == old(pc)) && (channel == null || channel == old(channel))
    {
      ghost var s0 := Abs();
      if d.candidate.Some? {
        match candidateError
        case Some(m) =>
          DestroyWith(Some(PeerError(CandidateErrorPrefix + m)), None);
        case None =>
          pc.AddIceCandidate(d.candidate.value);
          requests := requests + [AddCandidateRequest(d.candidate.value)];
      }
      AddCandidateKeepsInv(s0, d, candidateError);
    }

    /** The success callback of `setRemoteDescription`; `remoteType` is the type of the
        connection's remote description. */
    method OnRemoteDescriptionSet(remoteType: Option<SdpType>)
      requires Valid()
      modifies this`requests, pc
      ensures Valid() && Abs() == RemoteAppliedStep(old(Abs()), remoteType)
    {
      if destroyed {
        return;
      }
      if remoteType == Some(Offer) {
        CreateAnswer();
      }
    }

    /** The success callback of `createOffer`/`createAnswer`. */
    method OnDescriptionCreated(d: Description)
      requires Valid()
      modifies this`requests, this`emitted, this`awaiting, pc
      ensures Valid() && Abs() == DescriptionCreatedStep(old(Abs()), d, old(LocalNow()))
      ensures pc == old(pc)
    {
      if destroyed {
        return;
      }
      ghost var s0 := Abs();
      var hacked := d.(sdp := SpeedHack(d.sdp));
      SetLocal(hacked);
      ghost var s1 := Request(s0, SetLocalRequest(hacked));
      if trickle || iceComplete {
        EmitEvent(SignalEvent(DescriptionSignal(LocalNow().GetOr(hacked))));
        assert Abs() == Emit(s1, SignalEvent(DescriptionSignal(old(LocalNow()).GetOr(hacked))));
      } else {
        awaiting := awaiting + [hacked];
        assert Abs() == s1.(ice := s1.ice.(awaiting := s1.ice.awaiting + [hacked]));
      }
      DescriptionCreatedKeepsInv(s0, d, old(LocalNow()));
    }

    /** `pc.setLocalDescription(d)`; the engine applies it later, so `localDescription` is unchanged. */
    method SetLocal(d: Description)
      requires pc != null
      modifies this`requests, pc
      ensures Abs() == Request(old(Abs()), SetLocalRequest(d))
      ensures pc == old(pc) && pc.localDescription == old(pc.localDescription)
      ensures pc.localRequests == old(pc.localRequests) + [d]
    {
      pc.SetLocalDescription(d);
      requests := requests + [SetLocalRequest(d)];
    }

    /** A failure callback bound to `_onError`. */
    method OnError(message: string)
      requires Valid()
      modifies this, pc, channel
      ensures Valid() && Abs() == FailStep(old(Abs()), Some(PeerError(message)))
    {
      if destroyed {
        return;
      }
      DestroyWith(Some(PeerError(message)), None);
    }

    /** `_onIceConnectionStateChange`, with the connection's gathering and connection states. */
    method OnIceConnectionStateChange(g: IceGatheringState, st: IceConnectionState)
      requires Valid() && SendsAccepted()
      modifies this, pc, channel
      ensures Valid() && Abs() == IceConnectionStep(old(Abs()), g, st)
      ensures old(channel) != null && !destroyed ==> channel == old(channel)
      ensures old(channel) != null ==>
        old(channel).sent == old(channel.sent) + (if connected && !old(connected) then WireForms(old(buffer)) else [])
      ensures !old(destroyed) && destroyed ==>
        && old(pc).closed && old(pc).handlers == old(pc.handlers) - ConnectionHandlers
        && (old(channel) != null ==> old(channel).closeRequested && old(channel).handlers == old(channel.handlers) - ChannelHandlers)
    {
      if destroyed {
        return;
      }
      if st == Connected || st == Completed {
        ReportConnected(g, st);
      } else if st == Disconnected || st == IceConnectionState.Closed {
        ReportFailed(g, st);
      } else {
        ReportOnly(g, st);
      }
    }

    /** The other states are only reported. */
    method ReportOnly(g: IceGatheringState, st: IceConnectionState)
      requires Valid() && !destroyed
      requires st != Connected && st != Completed && st != Disconnected && st != IceConnectionState.Closed
      modifies this`emitted
      ensures Valid() && Abs() == IceConnectionStep(old(Abs()), g, st)
    {
      ghost var s0 := Abs();
      EmitEvent(IceStateEvent(g, st));
      EmitKeepsInv(s0, IceStateEvent(g, st));
    }

    /** The "connected"/"completed" branch: report, then `PcReady`. */
    method ReportConnected(g: IceGatheringState, st: IceConnectionState)
      requires Valid() && SendsAccepted() && !destroyed && (st == Connected || st == Completed)
      modifies this, channel
      ensures Valid() && Abs() == IceConnectionStep(old(Abs()), g, st)
      ensures channel == old(channel)
      ensures channel != null ==>
        channel.sent == old(channel.sent) + (if connected && !old(connected) then WireForms(old(buffer)) else [])
    {
      ghost var s0 := Abs();
      EmitEvent(IceStateEvent(g, st));
      EmitKeepsInv(s0, IceStateEvent(g, st));
      PcReady();
    }

    /** The "disconnected"/"closed" branch: report, then destroy. */
    method ReportFailed(g: IceGatheringState, st: IceConnectionState)
      requires Valid() && !destroyed && (st == Disconnected || st == IceConnectionState.Closed)
      modifies this, pc, channel
      ensures Valid() && Abs() == IceConnectionStep(old(Abs()), g, st)
      ensures destroyed && !connected
      ensures old(channel) != null ==> old(channel).sent == old(channel.sent)
      ensures old(pc).closed && old(pc).handlers == old(pc.handlers) - ConnectionHandlers
      ensures old(channel) != null ==> old(channel).closeRequested && old(channel).handlers == old(channel.handlers) - ChannelHandlers
    {
      ghost var s0 := Abs();
      EmitEvent(IceStateEvent(g, st));
      EmitKeepsInv(s0, IceStateEvent(g, st));
      DestroyWith(None, None);
    }

    /** ICE reports "connected": the connection side is ready; check the rendezvous. */
    method PcReady()
      requires Valid() && SendsAccepted() && !destroyed
      modifies this, channel
      ensures Valid() && Abs() == MaybeReadyStep(old(Abs()).(readiness := old(Abs()).readiness.(pcReady := true)))
      ensures channel == old(channel)
      ensures channel != null ==>
        channel.sent == old(channel.sent) + (if connected && !old(connected) then WireForms(old(buffer)) else [])
    {
      ghost var s0 := Abs();
      pcReady := true;
      assert Abs() == s0.(readiness := s0.readiness.(pcReady := true));
      PcReadyKeepsInv(s0);
      MaybeReady();
    }

    /** `_onSignalingStateChange`. */
    method OnSignalingStateChange(st: SignalingState)
      requires Valid()
      modifies this`emitted
      ensures Valid() && Abs() == SignalingStep(old(Abs()), st)
    {
      if destroyed {
        return;
      }
      ghost var s0 := Abs();
      EmitEvent(SignalingStateEvent(st));
      EmitKeepsInv(s0, SignalingStateEvent(st));
    }

    /** `_onIceCandidate`: `None` is the null candidate that ends gathering. */
    method OnIceCandidate(candidate: Option<IceCandidate>)
      requires Valid()
      modifies this`emitted, this`iceComplete, this`awaiting
      ensures Valid() && Abs() == IceCandidateStep(old(Abs()), candidate, LocalNow())
    {
      if destroyed {
        return;
      }
      ghost var s0 := Abs();
      if candidate.Some? && trickle {
        EmitEvent(SignalEvent(CandidateSignal(candidate.value)));
      } else if candidate.None? {
        iceComplete := true;
        emitted := emitted + AwaitedSignals(awaiting, LocalNow());
        awaiting := [];
        assert Abs() == s0.(ice := IceProgress(true, []),
          log := s0.log.(emitted := s0.log.emitted + AwaitedSignals(s0.ice.awaiting, LocalNow())));
      }
      IceCandidateKeepsInv(s0, candidate, LocalNow());
    }

    /** `_onChannelOpen`. */
    method OnChannelOpen()
      requires Valid() && channel != null && SendsAccepted()
      modifies this, channel
      ensures Valid() && Abs() == ChannelOpenStep(old(Abs()))
      ensures channel == old(channel)
      ensures channel.sent == old(channel.sent) + (if connected && !old(connected) then WireForms(old(buffer)) else [])
    {
      if destroyed {
        return;
      }
      ghost var s0 := Abs();
      channelReady := true;
      assert Abs() == s0.(readiness := s0.readiness.(channelReady := true));
      ChannelReadyKeepsInv(s0);
      MaybeReady();
    }

    /** `_onChannelMessage`. */
    method OnChannelMessage(m: Inbound)
      requires Valid() && channel != null
      modifies this`emitted
      ensures Valid() && Abs() == ChannelMessageStep(old(Abs()), m)
    {
      if destroyed {
        return;
      }
      ghost var s0 := Abs();
      EmitEvent(DataEvent(PayloadOf(m)));
      EmitKeepsInv(s0, DataEvent(PayloadOf(m)));
    }

    /** `_onChannelClose`. */
    method OnChannelClose()
      requires Valid() && channel != null
      modifies this, pc, channel
      ensures Valid() && Abs() == FailStep(old(Abs()), None)
    {
      if destroyed {
        return;
      }
      DestroyWith(None, None);
    }
  }
}
