/**
 * The browser side of the real-time channel: `SocketService`. It owns at most
 * one current WebSocket, re-subscribes each time a socket opens, retries after
 * a close up to five times, and dispatches each incoming message to the handlers
 * registered for its `type`.
 *
 * The browser's sockets and timers are explicit: every WebSocket ever created
 * is a `Channel` (the restaurant id its callbacks captured, and its
 * `readyState`), and `OnOpen`, `OnClose`, `OnMessage` and `TimerFire` are the
 * events the browser delivers. All reconnect timers have the same delay, so
 * they fire in the order they were set.
 */
module Socket {
  import opened Common
  import opened Schema
  import opened Protocol

  /** A WebSocket the service has created, by creation order. */
  type SocketId = nat

  /** A handler function, by identity. */
  type HandlerId = nat

  datatype ReadyState = Connecting | Open | Closing | Closed

  /** One created WebSocket: the `restaurantId` its callbacks close over, and its state. */
  datatype Channel = Channel(restaurantId: Option<string>, state: ReadyState)

  const MaxReconnectAttempts: nat := 5
  /** The delay of every reconnect timer, in milliseconds. */
  const ReconnectInterval: nat := 5000

  ghost predicate Distinct(hs: seq<HandlerId>) {
    forall i, j :: 0 <= i < j < |hs| ==> hs[i] != hs[j]
  }

  /** `set.add(h)` on a JavaScript `Set`, which keeps insertion order. */
  function InsertHandler(hs: seq<HandlerId>, h: HandlerId): (r: seq<HandlerId>)
    ensures forall x :: x in r <==> x in hs || x == h
    ensures Distinct(hs) ==> Distinct(r)
    ensures h in hs ==> r == hs
    ensures h !in hs ==> r == hs + [h]
  {
    if h in hs then hs else hs + [h]
  }

  /** `set.delete(h)`: everything but `h`, order kept. */
  function RemoveHandler(hs: seq<HandlerId>, h: HandlerId): (r: seq<HandlerId>)
    ensures forall x :: x in r <==> x in hs && x != h
    ensures Distinct(hs) ==> Distinct(r)
    ensures |r| <= |hs|
  {
    if hs == [] then []
    else if hs[0] == h then RemoveHandler(hs[1..], h)
    else
      assert Distinct(hs) ==> hs[0] !in hs[1..];
      [hs[0]] + RemoveHandler(hs[1..], h)
  }

  /** Registering an already registered handler changes nothing. */
  lemma InsertTwice(hs: seq<HandlerId>, h: HandlerId)
    ensures InsertHandler(InsertHandler(hs, h), h) == InsertHandler(hs, h)
  {
  }

  /** Removing a handler that was just added to a set without it gives the set back. */
  lemma {:induction false} RemoveUndoesInsert(hs: seq<HandlerId>, h: HandlerId)
    requires h !in hs
    ensures RemoveHandler(InsertHandler(hs, h), h) == hs
  {
    if hs != [] {
      assert (hs + [h])[1..] == hs[1..] + [h];
      RemoveUndoesInsert(hs[1..], h);
    } else {
      assert RemoveHandler([h], h) == RemoveHandler([], h);
    }
  }

  /**
   * How many handlers of `hs` run when those in `throwing` throw: `forEach`
   * stops at the first throwing handler, after calling it.
   */
  function Runs(hs: seq<HandlerId>, throwing: set<HandlerId>): (k: nat)
    ensures k <= |hs| && (hs != [] ==> k >= 1)
    ensures forall j :: 0 <= j < k - 1 ==> hs[j] !in throwing
    ensures k < |hs| ==> hs[k - 1] in throwing
    ensures k == |hs| && hs != [] && hs[k - 1] !in throwing ==> forall j :: 0 <= j < |hs| ==> hs[j] !in throwing
  {
    if hs == [] then 0
    else if hs[0] in throwing then 1
    else 1 + Runs(hs[1..], throwing)
  }

  /** With no handler throwing, every registered handler runs. */
  lemma {:induction false} RunsAll(hs: seq<HandlerId>, throwing: set<HandlerId>)
    requires forall j :: 0 <= j < |hs| ==> hs[j] !in throwing
    ensures Runs(hs, throwing) == |hs|
  {
    if hs != [] {
      RunsAll(hs[1..], throwing);
    }
  }

  /** The calls of one dispatch: each handler that runs, with the message, in registration order. */
  function Calls(hs: seq<HandlerId>, throwing: set<HandlerId>, e: Envelope): (cs: seq<(HandlerId, Envelope)>)
    ensures |cs| == Runs(hs, throwing)
    ensures forall j :: 0 <= j < |cs| ==> cs[j] == (hs[j], e)
  {
    seq(Runs(hs, throwing), j requires 0 <= j < Runs(hs, throwing) => (hs[j], e))
  }

  /** What `send` transmits through the current socket: only when there is one and it is OPEN. */
  function Transmission(socket: Option<SocketId>, channels: seq<Channel>, e: Envelope): (t: seq<(SocketId, Frame)>)
    ensures |t| <= 1
    ensures t != [] <==> socket.Some? && socket.value < |channels| && channels[socket.value].state == Open
    ensures t != [] ==> t[0] == (socket.value, Serialize(e))
  {
    if socket.Some? && socket.value < |channels| && channels[socket.value].state == Open
    then [(socket.value, Serialize(e))]
    else []
  }

  /** `handleReconnect`: a timer for `restaurantId` is set only while fewer than five retries have been made. */
  function Schedule(reconnectAttempts: nat, timers: seq<Option<string>>, restaurantId: Option<string>): (t: seq<Option<string>>)
    ensures reconnectAttempts < MaxReconnectAttempts ==> t == timers + [restaurantId]
    ensures reconnectAttempts >= MaxReconnectAttempts ==> t == timers
  {
    if reconnectAttempts < MaxReconnectAttempts then timers + [restaurantId] else timers
  }

  /** What the retry logic keeps: the counter, and how many reconnect timers are pending. */
  datatype Retry = Retry(attempts: nat, pending: nat)

  /**
   * What moves it: `handleReconnect` runs (after a close, or when the
   * WebSocket constructor throws), a pending timer fires, a socket opens.
   */
  datatype RetryEvent = ReconnectConsidered | TimerFired | SocketOpened

  /**
   * The retry logic as written: the bound is tested when a timer is set, and
   * the counter is raised when one fires, whichever chain set it.
   */
  function RetryStep(s: Retry, e: RetryEvent): Retry {
    match e
    case ReconnectConsidered => if s.attempts < MaxReconnectAttempts then s.(pending := s.pending + 1) else s
    case TimerFired => if s.pending == 0 then s else Retry(s.attempts + 1, s.pending - 1)
    case SocketOpened => s.(attempts := 0)
  }

  /** The counter and timers after `h`, from a fresh service. */
  function RetryRun(h: seq<RetryEvent>): Retry {
    if h == [] then Retry(0, 0) else RetryStep(RetryRun(h[..|h| - 1]), h[|h| - 1])
  }

  /**
   * The bound tested when a timer fires as well: a timer set while retries
   * remained does nothing once another chain has spent them.
   */
  function CheckedRetryStep(s: Retry, e: RetryEvent): Retry {
    match e
    case TimerFired =>
      if s.pending == 0 then s
      else if s.attempts < MaxReconnectAttempts then Retry(s.attempts + 1, s.pending - 1)
      else s.(pending := s.pending - 1)
    case _ => RetryStep(s, e)
  }

  function CheckedRetryRun(h: seq<RetryEvent>): Retry {
    if h == [] then Retry(0, 0) else CheckedRetryStep(CheckedRetryRun(h[..|h| - 1]), h[|h| - 1])
  }

  /** Two chains that never open, one round: both sockets close, then both timers fire. */
  const TwoChainRound: seq<RetryEvent> := [ReconnectConsidered, ReconnectConsidered, TimerFired, TimerFired]

  lemma RunSnoc(h: seq<RetryEvent>, e: RetryEvent)
    ensures RetryRun(h + [e]) == RetryStep(RetryRun(h), e)
    ensures CheckedRetryRun(h + [e]) == CheckedRetryStep(CheckedRetryRun(h), e)
  {
    assert (h + [e])[..|h|] == h;
  }

  /** A round below the bound raises the counter by two as written, and to at most five when checked. */
  lemma {:induction false} RoundRaises(h: seq<RetryEvent>)
    requires RetryRun(h).pending == 0 && RetryRun(h).attempts < MaxReconnectAttempts
    requires CheckedRetryRun(h).pending == 0 && CheckedRetryRun(h).attempts < MaxReconnectAttempts
    ensures RetryRun(h + TwoChainRound) == Retry(RetryRun(h).attempts + 2, 0)
    ensures CheckedRetryRun(h + TwoChainRound) ==
      Retry(if CheckedRetryRun(h).attempts + 2 <= MaxReconnectAttempts then CheckedRetryRun(h).attempts + 2 else MaxReconnectAttempts, 0)
  {
    var h1 := h + [ReconnectConsidered];
    var h2 := h1 + [ReconnectConsidered];
    var h3 := h2 + [TimerFired];
    RunSnoc(h, ReconnectConsidered);
    RunSnoc(h1, ReconnectConsidered);
    RunSnoc(h2, TimerFired);
    RunSnoc(h3, TimerFired);
    assert h3 + [TimerFired] == h + TwoChainRound;
  }

  /** As written, two chains make six retries without an open; with the check at fire time, five. */
  lemma RetryOvershoot()
    ensures RetryRun(TwoChainRound + TwoChainRound + TwoChainRound).attempts == MaxReconnectAttempts + 1
    ensures CheckedRetryRun(TwoChainRound + TwoChainRound + TwoChainRound).attempts == MaxReconnectAttempts
  {
    RoundRaises([]);
    assert [] + TwoChainRound == TwoChainRound;
    RoundRaises(TwoChainRound);
    RoundRaises(TwoChainRound + TwoChainRound);
  }

  /** With the check at fire time, no history takes the counter past five. */
  lemma {:induction false} CheckedRetryBound(h: seq<RetryEvent>)
    ensures CheckedRetryRun(h).attempts <= MaxReconnectAttempts
  {
    if h != [] {
      CheckedRetryBound(h[..|h| - 1]);
    }
  }

  /** The check at fire time changes nothing in a history whose counter stays within the bound as written. */
  lemma {:induction false} CheckedAgreesWithinBound(h: seq<RetryEvent>)
    requires forall k :: 0 <= k <= |h| ==> RetryRun(h[..k]).attempts <= MaxReconnectAttempts
    ensures CheckedRetryRun(h) == RetryRun(h)
  {
    if h != [] {
      var h' := h[..|h| - 1];
      forall k | 0 <= k <= |h'| ensures RetryRun(h'[..k]).attempts <= MaxReconnectAttempts {
        assert h'[..k] == h[..k];
      }
      CheckedAgreesWithinBound(h');
      assert h[..|h|] == h;
    }
  }

  class SocketService {
    var socket: Option<SocketId>
    var reconnectAttempts: nat
    var eventHandlers: map<string, seq<HandlerId>>
    /** Every WebSocket created so far. */
    var channels: seq<Channel>
    /** Pending reconnect timers, first to fire first, each with the restaurant id it captured. */
    var timers: seq<Option<string>>
    /** Every frame sent, with the socket it went through. */
    var sent: seq<(SocketId, Frame)>
    /** Every handler call, oldest first. */
    var invoked: seq<(HandlerId, Envelope)>

    ghost predicate Valid()
      reads this
    {
      && (socket.Some? ==> socket.value < |channels|)
      && forall e :: e in eventHandlers ==> Distinct(eventHandlers[e])
    }

    /** The retry counter and the number of pending timers. */
    function Counter(): Retry
      reads this
    {
      Retry(reconnectAttempts, |timers|)
    }

    /** No socket is open, connecting or closing, and no retry is pending. */
    predicate Idle()
      reads this
    {
      timers == [] && forall j :: 0 <= j < |channels| ==> channels[j].state == Closed
    }

    /**
     * A single chain of connect, close and retry is running: at most one timer
     * is pending, only the newest socket may still be live, never a live
     * socket together with a timer, and a pending timer was set below the bound.
     */
    ghost predicate OneChain()
      reads this
    {
      && |timers| <= 1
      && (forall j :: 0 <= j < |channels| && channels[j].state != Closed ==> j == |channels| - 1 && timers == [])
      && reconnectAttempts <= MaxReconnectAttempts
      && (timers != [] ==> reconnectAttempts < MaxReconnectAttempts)
    }

    constructor ()
      ensures Valid() && Idle() && OneChain()
      ensures socket == None && reconnectAttempts == 0 && eventHandlers == map[]
      ensures channels == [] && timers == [] && sent == [] && invoked == []
    {
      socket := None;
      reconnectAttempts := 0;
      eventHandlers := map[];
      channels := [];
      timers := [];
      sent := [];
      invoked := [];
    }

    /**
     * `connect(restaurantId)`: a new CONNECTING socket becomes the current one.
     * When the WebSocket constructor throws, the current socket stays and a
     * retry is considered at once.
     */
    method Connect(restaurantId: Option<string>, constructorThrows: bool)
      requires Valid()
      modifies this
      ensures Valid()
      ensures !constructorThrows ==>
        && channels == old(channels) + [Channel(restaurantId, Connecting)]
        && socket == Some(|old(channels)|) && timers == old(timers)
      ensures constructorThrows ==>
        && channels == old(channels) && socket == old(socket)
        && timers == Schedule(old(reconnectAttempts), old(timers), restaurantId)
      ensures reconnectAttempts == old(reconnectAttempts) && eventHandlers == old(eventHandlers)
      ensures sent == old(sent) && invoked == old(invoked)
      ensures constructorThrows ==> Counter() == RetryStep(old(Counter()), ReconnectConsidered)
      ensures !constructorThrows ==> Counter() == old(Counter())
      ensures old(Idle()) && old(OneChain()) ==> OneChain()
    {
      if constructorThrows {
        HandleReconnect(restaurantId);
      } else {
        channels := channels + [Channel(restaurantId, Connecting)];
        socket := Some(|channels| - 1);
      }
    }

    method HandleReconnect(restaurantId: Option<string>)
      modifies this`timers
      ensures timers == Schedule(reconnectAttempts, old(timers), restaurantId)
    {
      if reconnectAttempts < MaxReconnectAttempts {
        timers := timers + [restaurantId];
      }
    }

    /** `send(data)`. */
    method Send(e: Envelope)
      modifies this`sent
      ensures sent == old(sent) + Transmission(socket, channels, e)
    {
      if socket.Some? && socket.value < |channels| && channels[socket.value].state == Open {
        sent := sent + [(socket.value, Serialize(e))];
      }
    }

    /**
     * Socket `i`'s `onopen`: the retry counter goes back to zero, and when its
     * captured restaurant id is truthy a subscription is sent (through the
     * CURRENT socket, which need not be `i`).
     */
    method OnOpen(i: SocketId)
      requires Valid() && i < |channels| && channels[i].state == Connecting
      modifies this
      ensures Valid()
      ensures channels == old(channels)[i := Channel(old(channels[i].restaurantId), Open)]
      ensures reconnectAttempts == 0
      ensures Truthy(channels[i].restaurantId) ==>
        sent == old(sent) + Transmission(socket, channels, SubscribeMessage(channels[i].restaurantId.value))
      ensures !Truthy(channels[i].restaurantId) ==> sent == old(sent)
      ensures socket == old(socket) && timers == old(timers) && eventHandlers == old(eventHandlers)
      ensures invoked == old(invoked)
      ensures Counter() == RetryStep(old(Counter()), SocketOpened)
      ensures old(OneChain()) ==> OneChain()
    {
      channels := channels[i := Channel(channels[i].restaurantId, Open)];
      reconnectAttempts := 0;
      if Truthy(channels[i].restaurantId) {
        Send(SubscribeMessage(channels[i].restaurantId.value));
      }
    }

    /**
     * Socket `i`'s `onmessage`: text that does not parse calls nothing;
     * otherwise the handlers registered for the message's `type` run in
     * registration order until one throws (those in `throwing`).
     */
    method OnMessage(i: SocketId, f: Frame, throwing: set<HandlerId>)
      requires Valid() && i < |channels| && channels[i].state == Open
      modifies this`invoked
      ensures Parse(f).None? ==> invoked == old(invoked)
      ensures Parse(f).Some? && (Parse(f).value.kind.None? || Parse(f).value.kind.value !in eventHandlers) ==>
        invoked == old(invoked)
      ensures Parse(f).Some? && Parse(f).value.kind.Some? && Parse(f).value.kind.value in eventHandlers ==>
        invoked == old(invoked) + Calls(eventHandlers[Parse(f).value.kind.value], throwing, Parse(f).value)
    {
      var data := Parse(f);
      if data.None? {
        return;
      }
      var e := data.value;
      if e.kind.None? || e.kind.value !in eventHandlers {
        return;
      }
      var hs := eventHandlers[e.kind.value];
      var n := 0;
      var threw := false;
      while n < |hs| && !threw
        invariant 0 <= n <= |hs|
        invariant threw ==> n > 0 && hs[n - 1] in throwing
        invariant forall j :: 0 <= j < n && !(threw && j == n - 1) ==> hs[j] !in throwing
        invariant invoked == old(invoked) + seq(n, j requires 0 <= j < n => (hs[j], e))
        decreases |hs| - n
      {
        invoked := invoked + [(hs[n], e)];
        threw := hs[n] in throwing;
        n := n + 1;
      }
      RunsIs(hs, throwing, n);
      assert seq(n, j requires 0 <= j < n => (hs[j], e)) == Calls(hs, throwing, e);
    }

    /**
     * Socket `i`'s `onclose`, for whatever reason it closed, current socket or
     * not: a retry for its captured restaurant id is considered.
     */
    method OnClose(i: SocketId)
      requires Valid() && i < |channels| && channels[i].state != Closed
      modifies this
      ensures Valid()
      ensures channels == old(channels)[i := Channel(old(channels[i].restaurantId), Closed)]
      ensures timers == Schedule(old(reconnectAttempts), old(timers), old(channels[i].restaurantId))
      ensures socket == old(socket) && reconnectAttempts == old(reconnectAttempts)
      ensures eventHandlers == old(eventHandlers) && sent == old(sent) && invoked == old(invoked)
      ensures Counter() == RetryStep(old(Counter()), ReconnectConsidered)
      ensures old(OneChain()) ==> OneChain()
    {
      channels := channels[i := Channel(channels[i].restaurantId, Closed)];
      HandleReconnect(channels[i].restaurantId);
    }

    /** The first pending reconnect timer fires: the counter goes up, then `connect` runs again. */
    method TimerFire(constructorThrows: bool)
      requires Valid() && timers != []
      modifies this
      ensures Valid()
      ensures reconnectAttempts == old(reconnectAttempts) + 1
      ensures !constructorThrows ==>
        && channels == old(channels) + [Channel(old(timers[0]), Connecting)]
        && socket == Some(|old(channels)|) && timers == old(timers[1..])
      ensures constructorThrows ==>
        && channels == old(channels) && socket == old(socket)
        && timers == Schedule(old(reconnectAttempts) + 1, old(timers[1..]), old(timers[0]))
      ensures eventHandlers == old(eventHandlers) && sent == old(sent) && invoked == old(invoked)
      ensures !constructorThrows ==> Counter() == RetryStep(old(Counter()), TimerFired)
      ensures constructorThrows ==> Counter() == RetryStep(RetryStep(old(Counter()), TimerFired), ReconnectConsidered)
      ensures old(OneChain()) ==> OneChain()
    {
      var restaurantId := timers[0];
      timers := timers[1..];
      reconnectAttempts := reconnectAttempts + 1;
      Connect(restaurantId, constructorThrows);
    }

    /**
     * `disconnect()`: the current socket, if any, is asked to close (a socket
     * already closing or closed is left as it is) and forgotten, and every
     * handler is dropped. Pending timers are NOT cancelled.
     */
    method Disconnect()
      requires Valid()
      modifies this
      ensures Valid()
      ensures socket == None && eventHandlers == map[]
      ensures old(socket).Some? && old(channels[socket.value].state) in {Connecting, Open} ==>
        channels == old(channels)[old(socket.value) := Channel(old(channels[socket.value].restaurantId), Closing)]
      ensures old(socket).None? || old(channels[socket.value].state) !in {Connecting, Open} ==>
        channels == old(channels)
      ensures timers == old(timers) && reconnectAttempts == old(reconnectAttempts)
      ensures sent == old(sent) && invoked == old(invoked)
      ensures old(OneChain()) ==> OneChain()
    {
      if socket.Some? {
        var s := socket.value;
        if channels[s].state == Connecting || channels[s].state == Open {
          channels := channels[s := Channel(channels[s].restaurantId, Closing)];
        }
        socket := None;
      }
      eventHandlers := map[];
    }

    /** The handlers registered for `event`, none when it has no set. */
    function HandlersOf(event: string): seq<HandlerId>
      reads this
    {
      if event in eventHandlers then eventHandlers[event] else []
    }

    /** `on(event, handler)`. */
    method On(event: string, h: HandlerId)
      requires Valid()
      modifies this`eventHandlers
      ensures Valid()
      ensures eventHandlers == old(eventHandlers)[event := InsertHandler(old(HandlersOf(event)), h)]
    {
      eventHandlers := eventHandlers[event := InsertHandler(HandlersOf(event), h)];
    }

    /** `off(event, handler)`: a no-op for an event without a set; the emptied set stays. */
    method Off(event: string, h: HandlerId)
      requires Valid()
      modifies this`eventHandlers
      ensures Valid()
      ensures event !in old(eventHandlers) ==> eventHandlers == old(eventHandlers)
      ensures event in old(eventHandlers) ==>
        eventHandlers == old(eventHandlers)[event := RemoveHandler(old(eventHandlers[event]), h)]
    {
      if event in eventHandlers {
        eventHandlers := eventHandlers[event := RemoveHandler(eventHandlers[event], h)];
      }
    }
  }

  /** The loop in `OnMessage` stops exactly after `Runs` handlers. */
  lemma {:induction false} RunsIs(hs: seq<HandlerId>, throwing: set<HandlerId>, n: nat)
    requires n <= |hs|
    requires forall j :: 0 <= j < n - 1 ==> hs[j] !in throwing
    requires n == 0 ==> hs == []
    requires n > 0 ==> hs[n - 1] in throwing || (n == |hs| && forall j :: 0 <= j < n ==> hs[j] !in throwing)
    ensures Runs(hs, throwing) == n
  {
    if hs != [] && hs[0] !in throwing {
      RunsIs(hs[1..], throwing, n - 1);
    }
  }

  /**
   * A server that never accepts: every socket closes without opening. The
   * service retries exactly five times, so six sockets are created, and then
   * no timer is left.
   */
  method AlwaysFailing(restaurantId: Option<string>) returns (retries: nat, created: nat)
    ensures retries == MaxReconnectAttempts && created == MaxReconnectAttempts + 1
  {
    var svc := new SocketService();
    svc.Connect(restaurantId, false);
    svc.OnClose(0);
    retries := 0;
    while svc.timers != []
      invariant svc.Valid()
      invariant retries == svc.reconnectAttempts <= MaxReconnectAttempts
      invariant |svc.channels| == retries + 1
      invariant svc.timers == if retries < MaxReconnectAttempts then [restaurantId] else []
      decreases MaxReconnectAttempts - retries
    {
      svc.TimerFire(false);
      svc.OnClose(|svc.channels| - 1);
      retries := retries + 1;
    }
    created := |svc.channels|;
  }

  /** One input to the service: a call from a page, or an event the browser delivers. */
  datatype Input =
    | CallConnect(restaurantId: Option<string>, constructorThrows: bool)
    | CallDisconnect
    | CallOn(event: string, h: HandlerId)
    | CallOff(event: string, h: HandlerId)
    | CallSend(e: Envelope)
    | SocketOpens(i: SocketId)
    | SocketCloses(i: SocketId)
    | MessageArrives(i: SocketId, f: Frame, throwing: set<HandlerId>)
    | TimerFires(constructorThrows: bool)

  /**
   * Feeds `inputs` to a fresh service; a browser event that cannot happen at
   * that point (an open of a socket that is not CONNECTING, a message on one
   * that is not OPEN, a close of a closed one, a timer when none is pending)
   * is skipped. `oneChain` is false once `connect` is called while a socket
   * is live or a retry pending; `peak` is the highest the retry counter got.
   * With a single chain, in particular when `connect` is called at most once
   * and, if at all, first, the counter never passes five.
   */
  method Replay(inputs: seq<Input>) returns (peak: nat, oneChain: bool)
    ensures oneChain ==> peak <= MaxReconnectAttempts
    ensures (forall k :: 1 <= k < |inputs| ==> !inputs[k].CallConnect?) ==> oneChain
  {
    var svc := new SocketService();
    peak := 0;
    oneChain := true;
    var n := 0;
    while n < |inputs|
      invariant 0 <= n <= |inputs|
      invariant svc.Valid()
      invariant oneChain ==> svc.OneChain() && peak <= MaxReconnectAttempts
      invariant n == 0 ==> svc.Idle()
      invariant !oneChain ==> exists k :: 1 <= k < n && inputs[k].CallConnect?
    {
      match inputs[n] {
        case CallConnect(restaurantId, throws) =>
          if !svc.Idle() {
            oneChain := false;
          }
          svc.Connect(restaurantId, throws);
        case CallDisconnect =>
          svc.Disconnect();
        case CallOn(event, h) =>
          svc.On(event, h);
        case CallOff(event, h) =>
          svc.Off(event, h);
        case CallSend(e) =>
          svc.Send(e);
        case SocketOpens(i) =>
          if i < |svc.channels| && svc.channels[i].state == Connecting {
            svc.OnOpen(i);
          }
        case SocketCloses(i) =>
          if i < |svc.channels| && svc.channels[i].state != Closed {
            svc.OnClose(i);
          }
        case MessageArrives(i, f, throwing) =>
          if i < |svc.channels| && svc.channels[i].state == Open {
            svc.OnMessage(i, f, throwing);
          }
        case TimerFires(throws) =>
          if svc.timers != [] {
            svc.TimerFire(throws);
          }
      }
      if svc.reconnectAttempts > peak {
        peak := svc.reconnectAttempts;
      }
      n := n + 1;
    }
  }

  /**
   * `connect` called a second time while the first socket is still
   * connecting, against a server that never accepts: each close sets a
   * timer, each timer raises the one shared counter, and it reaches six.
   */
  method TwoChainsOvershoot(restaurantId: Option<string>) returns (attempts: nat)
    ensures attempts == MaxReconnectAttempts + 1
  {
    var svc := new SocketService();
    svc.Connect(restaurantId, false);
    svc.Connect(restaurantId, false);
    var k := 0;
    while k < 3
      invariant 0 <= k <= 3
      invariant svc.Valid()
      invariant svc.reconnectAttempts == 2 * k && svc.timers == []
      invariant |svc.channels| == 2 * k + 2
      invariant svc.channels[2 * k].state == Connecting && svc.channels[2 * k + 1].state == Connecting
    {
      svc.OnClose(2 * k);
      svc.OnClose(2 * k + 1);
      svc.TimerFire(false);
      svc.TimerFire(false);
      k := k + 1;
    }
    attempts := svc.reconnectAttempts;
  }

  /**
   * Opening sends the subscription exactly when the restaurant id is truthy,
   * through the socket that opened.
   */
  method SubscribeOnOpen(restaurantId: Option<string>) returns (sent: seq<(SocketId, Frame)>)
    ensures Truthy(restaurantId) ==> sent == [(0, Serialize(SubscribeMessage(restaurantId.value)))]
    ensures !Truthy(restaurantId) ==> sent == []
  {
    var svc := new SocketService();
    svc.Connect(restaurantId, false);
    svc.OnOpen(0);
    sent := svc.sent;
  }

  /**
   * With `connect` called twice, the older socket opening sends nothing: the
   * subscription goes through the current socket, which is still CONNECTING.
   */
  method StaleOpenSendsNothing(restaurantId: string) returns (sent: seq<(SocketId, Frame)>, current: Option<SocketId>)
    ensures sent == [] && current == Some(1)
  {
    var svc := new SocketService();
    svc.Connect(Some(restaurantId), false);
    svc.Connect(Some(restaurantId), false);
    svc.OnOpen(0);
    sent := svc.sent;
    current := svc.socket;
  }

  /**
   * `disconnect()` on an open socket, then that socket's close event: the
   * handlers are gone and the socket forgotten, yet a retry is pending, and when
   * it fires a new socket is created for the same restaurant.
   */
  method DisconnectThenClose(restaurantId: Option<string>, h: HandlerId)
    returns (pending: seq<Option<string>>, handlers: map<string, seq<HandlerId>>, current: Option<SocketId>)
    ensures pending == [restaurantId] && handlers == map[]
    ensures current == Some(1)
  {
    var svc := new SocketService();
    svc.Connect(restaurantId, false);
    svc.OnOpen(0);
    svc.On("new_order", h);
    svc.Disconnect();
    assert svc.channels[0].state == Closing;
    svc.OnClose(0);
    pending := svc.timers;
    handlers := svc.eventHandlers;
    svc.TimerFire(false);
    current := svc.socket;
  }

  /**
   * Two handlers for `new_order`, the first throwing: a `new_order` message
   * reaches the first only, while with no handler throwing it reaches both in
   * registration order. An `order_updated` message reaches neither.
   */
  method ThrowStopsRest(h1: HandlerId, h2: HandlerId, o: Order)
    returns (calls: seq<(HandlerId, Envelope)>, callsWithoutThrow: seq<(HandlerId, Envelope)>)
    requires h1 != h2
    ensures calls == [(h1, NewOrderMessage(o))]
    ensures callsWithoutThrow == [(h1, NewOrderMessage(o)), (h2, NewOrderMessage(o))]
  {
    var svc := OpenWithTwoHandlers(h1, h2);
    var e := NewOrderMessage(o);
    svc.OnMessage(0, Serialize(OrderUpdatedMessage(o)), {});
    assert svc.invoked == [];
    svc.OnMessage(0, Serialize(e), {h1});
    assert Runs([h1, h2], {h1}) == 1;
    calls := svc.invoked;
    svc.OnMessage(0, Serialize(e), {});
    assert Runs([h1, h2], {}) == 2;
    callsWithoutThrow := svc.invoked[|calls|..];
  }

  /** A service with `h1` then `h2` registered for "new_order", over an open socket, nothing run yet. */
  method OpenWithTwoHandlers(h1: HandlerId, h2: HandlerId) returns (svc: SocketService)
    requires h1 != h2
    ensures fresh(svc) && svc.Valid()
    ensures svc.eventHandlers == map["new_order" := [h1, h2]]
    ensures |svc.channels| == 1 && svc.channels[0].state == Open && svc.invoked == []
  {
    svc := new SocketService();
    svc.On("new_order", h1);
    svc.On("new_order", h2);
    assert svc.eventHandlers["new_order"] == [h1, h2];
    svc.Connect(None, false);
    svc.OnOpen(0);
  }
}
