/**
  The `DataChannel` class of datachannel.js: a stream adapter around one native data
  channel handle. Its fields are the source's fields; `Abs` reads them, together with
  the bound handle, as a `DataChannelSpec.AdapterState`, and every method is proved to
  move that state exactly as the matching step function does. The handle's event
  handlers and the adapter's timers are the methods `OnChannel...`, `OnInterval`,
  `ClosingTick` and `CloseDelayElapsed`, called by the engine.
*/
module DataChannels {
  import opened Wrappers
  import opened Engine
  import opened DataChannelSpec

  /** The handlers `_setDataChannel` binds on the handle. */
  const BoundHandlers: set<ChannelHandler> := {OnMessage, OnBufferedAmountLow, OnOpen, OnClose, OnError}
  /** The handlers `_destroy` nulls; `onbufferedamountlow` stays bound. */
  const DetachedHandlers: set<ChannelHandler> := {OnMessage, OnOpen, OnClose, OnError}

  /** What destroy did to the handle `h` it let go of: the adapter's handlers are unbound
      from it (they were `handlersBefore`), and its close was deferred when the channel
      was still fresh (`freshness` was not `Settled`, see `CloseTimingOf`) and requested
      at once otherwise. */
  ghost predicate Released(h: ChannelHandle, handlersBefore: set<ChannelHandler>, freshness: Freshness)
    reads h
  {
    && h.handlers == handlersBefore - DetachedHandlers
    && (if freshness != Settled then h.closeDeferred else h.closeRequested)
  }

  class DataChannel {
    var chunk: Option<Chunk>
    var cb: Option<Callback>
    /** `_interval`: the 150 ms backpressure poll is running. */
    var polling: bool
    /** `_closingInterval` and the `isClosing` flag its ticks share. */
    var closingPoll: ClosingPoll
    var channel: ChannelHandle?
    /** `_fresh` and the timer that clears it. */
    var freshness: Freshness
    var destroyed: bool
    var channelName: Option<string>
    /** The application listens for `error`. */
    const errorListener: bool
    /** Events emitted (`open`, `data` through `push`, `error`, `close`) and callbacks invoked. */
    var emitted: seq<ChannelEvent>
    var completions: seq<Completion<CodedError>>
    /** The error `_destroy` threw because nobody listens for `error`. */
    var escaped: Option<CodedError>
    /** Every chunk the adapter handed to the handle's `send`, and what the handle had
        been sent before it was bound. */
    ghost var wire: seq<Chunk>
    ghost var preBind: seq<Chunk>

    ghost function Abs(): AdapterState
      reads this, channel
    {
      AdapterState(chunk, cb, polling, closingPoll,
        if channel == null then None
        else Some(HandleView(channel.readyState, channel.bufferedAmount, channel.lowThresholdSupported, channel.sendFailure)),
        freshness, destroyed, channelName, errorListener, wire, emitted, completions, escaped)
    }

    /** The bound handle carries the adapter's handlers and, when the engine supports
        it, the backpressure threshold; what it was sent since binding is `wire`. */
    ghost predicate HandleBound()
      reads this, channel
    {
      channel != null ==>
        && BoundHandlers <= channel.handlers
        && channel.sent == preBind + wire
        && (channel.lowThresholdSupported ==> channel.bufferedAmountLowThreshold == MaxBufferedAmount)
    }

    ghost predicate Valid()
      reads this, channel
    {
      Inv(Abs()) && HandleBound()
    }

    constructor (name: Option<string>, errorListener: bool)
      ensures Valid() && Abs() == Initial(name, errorListener)
    {
      chunk := None;
      cb := None;
      polling := false;
      closingPoll := Ticking(false);
      channel := null;
      freshness := Unopened;
      destroyed := false;
      channelName := if name.Some? && name.value != [] then name else None;
      this.errorListener := errorListener;
      emitted := [];
      completions := [];
      escaped := None;
      wire := [];
      preBind := [];
      new;
      InitialInv(name, errorListener, HandleView(Connecting, 0, false, None), []);
    }

    /** `_setDataChannel`, called once by the adapter's creator right after construction. */
    method SetDataChannel(h: ChannelHandle)
      requires Valid() && !destroyed && channel == null
      modifies this, h
      ensures Valid() && channel == h
      ensures Abs() == BindStep(old(Abs()),
                HandleView(h.readyState, h.bufferedAmount, h.lowThresholdSupported, h.sendFailure), h.channelLabel)
      ensures h.bufferedAmountLowThreshold == if h.lowThresholdSupported then MaxBufferedAmount else old(h.bufferedAmountLowThreshold)
      ensures h.handlers == old(h.handlers) + BoundHandlers
      ensures h.readyState == old(h.readyState) && h.bufferedAmount == old(h.bufferedAmount)
      ensures h.sendFailure == old(h.sendFailure) && h.sent == old(h.sent)
    {
      ghost var s0 := Abs();
      ghost var view := HandleView(h.readyState, h.bufferedAmount, h.lowThresholdSupported, h.sendFailure);
      channel := h;
      preBind := h.sent;
      if h.lowThresholdSupported {
        h.bufferedAmountLowThreshold := MaxBufferedAmount;
      }
      channelName := Some(ChannelNameOf(h.channelLabel));
      h.SetHandlers(BoundHandlers, true);
      assert Abs() == BindStep(s0, view, h.channelLabel);
      BindKeepsInv(s0, view, h.channelLabel);
    }

    /** `destroy(err)`, that is `_destroy(err, noop)`. */
    method Destroy(err: Option<CodedError>)
      requires Valid()
      modifies this, channel
      ensures Valid() && Abs() == DestroyStep(old(Abs()), err)
      ensures channel == null && preBind == old(preBind)
      ensures old(channel) != null ==> old(channel).sent == old(channel.sent)
      ensures !old(destroyed) && old(channel) != null ==>
        Released(old(channel), old(channel.handlers), old(freshness))
    {
      ghost var s0 := Abs();
      if destroyed {
        return;
      }
      if channel != null {
        ReleaseChannel();
      }
      StopAll();
      AnnounceClose(err);
      assert Abs() == DestroyStep(s0, err);
      DestroyKeepsInv(s0, err);
    }

    /** Emits `error` (when given) and `close`; with no `error` listener, the `error` emit
        throws `err` instead and nothing is delivered. */
    method AnnounceClose(err: Option<CodedError>)
      modifies this`emitted, this`escaped
      ensures Abs() == old(Abs()).(emitted := old(emitted) + DestroyEvents(err, errorListener),
                                   escaped := if DestroyThrows(err, errorListener) then err else old(escaped))
    {
      if DestroyThrows(err, errorListener) {
        escaped := err;
      } else {
        emitted := emitted + DestroyEvents(err, errorListener);
      }
    }

    /** Closes the handle (after the close delay while fresh) and unbinds the adapter's
        handlers from it. */
    method ReleaseChannel()
      requires channel != null
      modifies this`channel, channel
      ensures channel == null && Abs() == old(Abs()).(channel := None)
      ensures Released(old(channel), old(channel.handlers), freshness)
      ensures old(channel).sent == old(channel.sent)
    {
      if freshness != Settled {
        channel.DeferClose();
      } else {
        channel.Close();
      }
      channel.SetHandlers(DetachedHandlers, false);
      channel := null;
    }

    /** Marks the adapter destroyed, stops both polls and empties the slot and the name. */
    method StopAll()
      modifies this`destroyed, this`closingPoll, this`polling, this`chunk, this`cb, this`channelName
      ensures Abs() == old(Abs()).(destroyed := true, closing := Stopped, polling := false,
                                   chunk := None, cb := None, channelName := None)
    {
      destroyed := true;
      closingPoll := Stopped;
      polling := false;
      chunk := None;
      cb := None;
      channelName := None;
    }

    /** `_write(chunk, encoding, cb)`; `done` is the write's callback. */
    method Write(c: Chunk, done: Callback)
      requires Valid()
      modifies this, channel
      ensures Valid() && Abs() == WriteStep(old(Abs()), c, done)
      ensures preBind == old(preBind) && (channel == null || channel == old(channel))
      ensures old(channel) != null ==>
        old(channel).sent == old(channel.sent) +
          (if !old(destroyed) && old(channel.readyState) == Open && old(channel.sendFailure).None? then [c] else [])
      ensures old(channel) != null && !old(destroyed) && destroyed ==>
        Released(old(channel), old(channel.handlers), old(freshness))
    {
      ghost var s0 := Abs();
      if destroyed {
        completions := completions + [Completion(done, Some(WriteAfterDestroyError))];
        StepKeepsInv(s0, Input.Write(c, done));
      } else if channel != null && channel.readyState == Open {
        WriteOpen(c, done);
      } else {
        chunk := Some(c);
        cb := Some(done);
        StepKeepsInv(s0, Input.Write(c, done));
      }
    }

    /** The branch of `_write` on an open channel: send, or destroy when `send` throws. */
    method WriteOpen(c: Chunk, done: Callback)
      requires Valid() && !destroyed && channel != null && channel.readyState == Open
      modifies this, channel
      ensures Valid() && Abs() == WriteStep(old(Abs()), c, done)
      ensures preBind == old(preBind) && (channel == null || channel == old(channel))
      ensures old(channel).sent == old(channel.sent) + (if old(channel.sendFailure).None? then [c] else [])
      ensures destroyed ==> Released(old(channel), old(channel.handlers), old(freshness))
    {
      match channel.sendFailure
      case Some(m) =>
        Destroy(Some(CodedError(m, ErrDataChannel)));
      case None =>
        ghost var s0 := Abs();
        SendNow(c, done);
        StepKeepsInv(s0, Input.Write(c, done));
    }

    /** The branch of `_write` on an open channel whose `send` succeeds: the callback is
        held while the buffer is over the threshold, and called at once otherwise. */
    method SendNow(c: Chunk, done: Callback)
      requires !destroyed && channel != null && channel.readyState == Open && channel.sendFailure.None?
      modifies this`wire, this`cb, this`completions, channel
      ensures Abs() == WriteStep(old(Abs()), c, done)
      ensures channel.sent == old(channel.sent) + [c]
      ensures channel.handlers == old(channel.handlers)
      ensures channel.bufferedAmountLowThreshold == old(channel.bufferedAmountLowThreshold)
    {
      channel.Send(c);
      wire := wire + [c];
      if channel.bufferedAmount > MaxBufferedAmount {
        cb := Some(done);
      } else {
        completions := completions + [Completion(done, None)];
      }
    }

    /** `_onInterval`: a tick of the backpressure poll. */
    method OnInterval()
      requires Valid() && polling
      modifies this
      ensures Valid() && Abs() == PollStep(old(Abs()))
      ensures channel == old(channel) && preBind == old(preBind)
    {
      ghost var s0 := Abs();
      if cb.None? || channel == null || channel.bufferedAmount > MaxBufferedAmount {
        return;
      }
      OnChannelBufferedAmountLow();
      StepKeepsInv(s0, BackpressurePoll);
    }

    /** `_onChannelMessage`: the message is pushed to the readable side unless destroyed. */
    method OnChannelMessage(c: Chunk)
      requires Valid() && channel != null
      modifies this
      ensures Valid() && Abs() == MessageStep(old(Abs()), c)
      ensures channel == old(channel) && preBind == old(preBind)
    {
      ghost var s0 := Abs();
      if !destroyed {
        emitted := emitted + [DataEvent(c)];
      }
      StepKeepsInv(s0, NativeMessage(c));
    }

    /** `_onChannelBufferedAmountLow`: clears the held callback, then calls it. */
    method OnChannelBufferedAmountLow()
      requires Valid() && channel != null
      modifies this
      ensures Valid() && Abs() == LowBufferStep(old(Abs()))
      ensures channel == old(channel) && preBind == old(preBind)
    {
      ghost var s0 := Abs();
      if destroyed || cb.None? {
        return;
      }
      var held := cb.value;
      cb := None;
      completions := completions + [Completion(held, None)];
      StepKeepsInv(s0, NativeBufferedAmountLow);
    }

    /** `_onChannelOpen`: emits `open`, flushes the held write and starts the fresh timer. */
    method OnChannelOpen()
      requires Valid() && channel != null
      modifies this, channel
      ensures Valid() && Abs() == OpenStep(old(Abs()))
      ensures preBind == old(preBind) && (channel == null || channel == old(channel))
      ensures old(channel).sent == old(channel.sent) +
        (if !old(destroyed) && old(chunk).Some? && Truthy(old(chunk).value) && old(channel.sendFailure).None?
         then [old(chunk).value] else [])
      ensures !old(destroyed) && destroyed ==> Released(old(channel), old(channel.handlers), old(freshness))
    {
      ghost var s0 := Abs();
      var escapedBefore := escaped;
      OpenAndFlush();
      // A flush whose destroy threw leaves the handler before the timer is started.
      if escaped == escapedBefore {
        StartFreshTimer();
      }
      OpenSound(s0);
    }

    /** The first two statements of `_onChannelOpen`: `emit('open')`, then `_sendChunk`. */
    method OpenAndFlush()
      requires Valid() && channel != null
      modifies this, channel
      ensures HandleBound() && Abs() == SendChunkStep(old(Abs()).(emitted := old(emitted) + [OpenEvent]))
      ensures preBind == old(preBind) && (channel == null || channel == old(channel))
      ensures old(channel).sent == old(channel.sent) +
        (if !old(destroyed) && old(chunk).Some? && Truthy(old(chunk).value) && old(channel.sendFailure).None?
         then [old(chunk).value] else [])
      ensures !old(destroyed) && destroyed ==> Released(old(channel), old(channel.handlers), old(freshness))
    {
      ghost var s0 := Abs();
      emitted := emitted + [OpenEvent];
      EmitKeepsCloseCount(s0, OpenEvent);
      SendChunk();
    }

    /** Starts the timer that ends `_fresh`; a channel already settled stays settled. */
    method StartFreshTimer()
      modifies this`freshness
      ensures Abs() == old(Abs()).(freshness := if old(freshness) == Settled then Settled else JustOpened)
    {
      if freshness != Settled {
        freshness := JustOpened;
      }
    }

    /** `_onChannelClose`. */
    method OnChannelClose()
      requires Valid() && channel != null
      modifies this, channel
      ensures Valid() && Abs() == DestroyStep(old(Abs()), None)
      ensures channel == null && preBind == old(preBind) && old(channel).sent == old(channel.sent)
      ensures !old(destroyed) ==> Released(old(channel), old(channel.handlers), old(freshness))
    {
      Destroy(None);
    }

    /** The handle's `onerror`: destroy with an `ERR_DATA_CHANNEL` error. */
    method OnChannelError(message: string)
      requires Valid() && channel != null
      modifies this, channel
      ensures Valid() && Abs() == DestroyStep(old(Abs()), Some(CodedError(message, ErrDataChannel)))
      ensures channel == null && preBind == old(preBind) && old(channel).sent == old(channel.sent)
      ensures !old(destroyed) ==> Released(old(channel), old(channel.handlers), old(freshness))
    {
      Destroy(Some(CodedError(message, ErrDataChannel)));
    }

    /** `_sendChunk`: sends the write held before open, completes it, and starts the
        backpressure poll when the handle has no low-buffer event. */
    method SendChunk()
      requires Valid() && (destroyed || channel != null)
      modifies this, channel
      ensures HandleBound() && Abs() == SendChunkStep(old(Abs()))
      ensures preBind == old(preBind) && (channel == null || channel == old(channel))
      ensures old(channel) != null ==>
        old(channel).sent == old(channel.sent) +
          (if !old(destroyed) && old(chunk).Some? && Truthy(old(chunk).value) && old(channel.sendFailure).None?
           then [old(chunk).value] else [])
      ensures old(channel) != null && !old(destroyed) && destroyed ==>
        Released(old(channel), old(channel.handlers), old(freshness))
    {
      if destroyed {
        return;
      }
      if chunk.Some? && Truthy(chunk.value) {
        match channel.sendFailure
        case Some(m) =>
          Destroy(Some(CodedError(m, ErrDataChannel)));
          return;
        case None =>
          FlushHeld();
      }
      StartPoll();
    }

    /** Starts the 150 ms backpressure poll where the handle has no low-buffer event. */
    method StartPoll()
      requires channel != null
      modifies this`polling
      ensures Abs() == if !old(polling) && !channel.lowThresholdSupported then old(Abs()).(polling := true) else old(Abs())
    {
      if !polling && !channel.lowThresholdSupported {
        polling := true;
      }
    }

    /** Sends the held chunk, empties the slot and calls the held callback. */
    method FlushHeld()
      requires channel != null && channel.sendFailure.None? && chunk.Some?
      modifies this`wire, this`chunk, this`cb, this`completions, channel
      ensures channel.readyState == old(channel.readyState) && channel.sendFailure == old(channel.sendFailure)
      ensures channel.bufferedAmount == old(channel.bufferedAmount) + ByteLength(old(chunk.value))
      ensures channel.handlers == old(channel.handlers)
      ensures channel.bufferedAmountLowThreshold == old(channel.bufferedAmountLowThreshold)
      ensures wire == old(wire) + [old(chunk.value)] && chunk.None? && cb.None?
      ensures channel.sent == old(channel.sent) + [old(chunk.value)]
      ensures completions == old(completions) + if old(cb).Some? then [Completion(old(cb).value, None)] else []
      ensures Abs() == SendOk(old(Abs()), old(chunk.value)).(chunk := None, cb := None, completions := completions)
    {
      channel.Send(chunk.value);
      wire := wire + [chunk.value];
      chunk := None;
      var held := cb;
      cb := None;
      if held.Some? {
        completions := completions + [Completion(held.value, None)];
      }
    }

    /** The getter `bufferSize`. */
    function BufferSize(): (n: nat)
      reads this, channel
      ensures n == DataChannelSpec.BufferSize(Abs())
    {
      if channel != null then channel.bufferedAmount else 0
    }

    /** A tick of the closing poll started by the constructor. */
    method ClosingTick()
      requires Valid() && closingPoll.Ticking?
      modifies this, channel
      ensures Valid() && Abs() == ClosingPollStep(old(Abs()))
      ensures preBind == old(preBind) && (channel == null || channel == old(channel))
      ensures old(channel) != null ==> old(channel).sent == old(channel.sent)
      ensures old(channel) != null && destroyed ==> Released(old(channel), old(channel.handlers), old(freshness))
    {
      ghost var s0 := Abs();
      if channel != null && channel.readyState == Closing {
        if closingPoll.sawClosing {
          OnChannelClose();
        } else {
          closingPoll := Ticking(true);
        }
      } else {
        closingPoll := Ticking(false);
      }
      StepKeepsInv(s0, ClosingPoll);
    }

    /** The timer started on open fires: the channel is no longer fresh. */
    method CloseDelayElapsed()
      requires Valid() && freshness == JustOpened
      modifies this
      ensures Valid() && Abs() == old(Abs()).(freshness := Settled)
      ensures channel == old(channel) && preBind == old(preBind)
    {
      ghost var s0 := Abs();
      freshness := Settled;
      StepKeepsInv(s0, Input.CloseDelayElapsed);
    }
  }
}
