/**
  The daemon client object: the state of the class, held in one field per group of
  the source's fields, and the methods that update it in place. Each method is proved
  to perform the step of the connection engine it stands for.
*/
module DaemonClient {
  import opened Options
  import opened Connection
  import I = ConnectionInvariant
  import P = ConnectPromise
  import R = QueuedRequests
  import S = WaiterSet
  import T = SessionTables
  import W = Waiters
  import Q = SendQueue

  ghost predicate Good(s: State) {
    I.ConnectionOk(s) && P.PromiseOk(s) && T.TablesOk(s) && R.WaitersExist(s)
  }

  lemma EngineKeepsGood(s: State, e: Event, r: State)
    requires Good(s) && r == Step(s, e)
    ensures Good(r)
  {
    I.StepKeepsConnectionOk(s, e);
    P.StepKeepsPromiseOk(s, e, r);
    T.StepProgress(s, e);
    R.StepKeepsWaitersExist(s, e, r);
  }

  // Waiters are only ever added.
  twostate predicate Grown(before: seq<S.WaiterObject>, new after: seq<S.WaiterObject>) {
    before <= after && forall k | |before| <= k < |after| :: fresh(after[k])
  }

  class DaemonClient {
    var link: Link              // connectionState, transport, lastServerInfoMessage
    var retry: Retry            // shouldReconnect, reconnect settings, reconnectTimeout
    var deadlines: Deadlines    // connectTimeout, pendingGenericTransportErrorTimeout
    var connects: Connects      // connectPromise, connectResolve, connectReject
    var live: Liveness          // heartbeat timer, pingProbe, failure counter, verification
    const waiters: S.WaiterSet
    var sends: Q.Ledger

    ghost function Model(): State
      reads this, waiters
    {
      State(link, retry, deadlines, connects, live, waiters.table, sends)
    }

    ghost predicate Valid()
      reads this, waiters, waiters.made
    {
      waiters.Valid() && Good(Model())
    }

    constructor (backoff: Backoff, enabled: bool)
      ensures Valid() && Model() == Initial(backoff, enabled) && fresh(waiters) && waiters.made == []
    {
      waiters := new S.WaiterSet();
      link := Link(Idle, None, {}, 0, false, {}, []);
      retry := Retry(true, enabled, false, None, 0, [], backoff);
      deadlines := Deadlines(false, false);
      connects := Connects(None, None, map[], 0);
      live := Liveness(false, None, 0, None, {});
      sends := Q.EMPTY;
    }

    // ------------------------------------------------------------ the waiters

    // Requests name their waiter by its position among all that were ever made.
    method CancelWaiter(key: nat)
      requires waiters.Valid()
      modifies waiters`waiters, waiters`table, waiters.made
      ensures waiters.Valid() && waiters.table == W.Cancel(old(waiters.table), key)
    {
      if key < |waiters.made| { waiters.Cancel(waiters.made[key]); }
    }

    method CancelWaiters(keys: seq<nat>)
      requires waiters.Valid()
      modifies waiters`waiters, waiters`table, waiters.made
      ensures waiters.Valid() && waiters.table == CancelAll(old(waiters.table), keys)
    {
      var i := 0;
      while i < |keys|
        invariant i <= |keys| && waiters.Valid()
        invariant CancelAll(waiters.table, keys[i..]) == CancelAll(old(waiters.table), keys)
      {
        CancelWaiter(keys[i]);
        i := i + 1;
      }
    }

    // --------------------------------------------------------- the send queue

    method SendQueued(send: Q.Send, throws: set<nat>) returns (sent: bool)
      modifies this`sends
      ensures sent <==> link.transport.Some? && link.status == Connected && send.id !in throws
      ensures sends == Q.FlushOne(old(sends), send, link.transport.Some? && link.status == Connected, throws)
    {
      sent := link.transport.Some? && link.status == Connected && send.id !in throws;
      if sent {
        sends := sends.(fates := sends.fates[send.id := Q.Sent], wire := sends.wire + [send.id]);
      } else {
        sends := sends.(fates := sends.fates[send.id := Q.Failed]);
      }
    }

    // `throws` are the queued sends on which the transport throws. Returns the
    // waiters of the rejected sends.
    method FlushPendingSendQueue(throws: set<nat>) returns (failed: seq<nat>)
      modifies this`sends
      ensures var open := link.transport.Some? && link.status == Connected;
              && sends == Q.Flush(old(sends), open, throws)
              && failed == Q.FailedWaiters(old(sends).queue, open, throws)
    {
      var queue, i := sends.queue, 0;
      sends, failed := sends.(queue := []), [];
      ghost var open := link.transport.Some? && link.status == Connected;
      while i < |queue|
        invariant i <= |queue|
        invariant Q.FlushFrom(queue[i..], sends, open, throws) == Q.Flush(old(sends), open, throws)
        invariant failed + Q.FailedWaiters(queue[i..], open, throws) == Q.FailedWaiters(queue, open, throws)
      {
        var sent := SendQueued(queue[i], throws);
        if !sent && queue[i].waiter.Some? { failed := failed + [queue[i].waiter.value]; }
        i := i + 1;
      }
    }

    method RejectPendingSendQueue()
      modifies this`sends
      ensures sends == Q.RejectAll(old(sends))
    {
      var queue, i := sends.queue, 0;
      sends := sends.(queue := []);
      while i < |queue|
        invariant i <= |queue|
        invariant Q.FlushFrom(queue[i..], sends, false, {}) == Q.RejectAll(old(sends))
      {
        sends := sends.(fates := sends.fates[queue[i].id := Q.Failed]);
        i := i + 1;
      }
    }

    // --------------------------------------------------------- private steps

    method UpdateConnectionState(to: Status, event: Cause)
      modifies this`link
      ensures link == Transit(old(link), to, event)
    {
      link := link.(status := to, log := link.log + [Transition(to, event)]);
    }

    method SettleConnectPromise(ok: bool)
      modifies this`connects
      ensures connects == SettleConnect(old(connects), ok)
    {
      if connects.hooks.Some? && connects.hooks.value !in connects.settled {
        connects := connects.(settled := connects.settled[connects.hooks.value := ok]);
      }
      connects := connects.(promise := None, hooks := None);
    }

    method DisposeCurrentTransport()
      modifies this`link, this`deadlines, this`live
      ensures Model() == DisposeTransport(old(Model()))
    {
      live := live.(heartbeat := false);
      deadlines := Deadlines(false, false);
      if link.transport.Some? {
        link := link.(unclosed := link.unclosed - {link.transport.value}, transport := None);
      }
    }

    method ArmReconnect()
      modifies this`retry
      ensures retry == ArmReconnectTimer(old(retry))
    {
      var delay := Delay(retry.backoff, retry.attempt);
      retry := retry.(attempt := retry.attempt + 1, timer := Some(delay), delays := retry.delays + [delay]);
    }

    method DropCurrentSession()
      requires waiters.Valid()
      modifies this, waiters`waiters, waiters`table, waiters.made
      ensures waiters.Valid() && Model() == DropSession(old(Model()))
    {
      retry := retry.(timer := None);
      waiters.Clear(W.ConnectionLost);
      RejectPendingSendQueue();
      live := live.(probe := None);
      link := link.(serverInfo := false, slots := {});
      if retry.authFailed { retry := retry.(enabled := false); }
    }

    method Reschedule(event: Cause)
      requires waiters.Valid()
      modifies this, waiters`waiters, waiters`table, waiters.made
      ensures waiters.Valid() && Model() == ScheduleReconnect(old(Model()), event)
    {
      DropCurrentSession();
      if link.status == Disposed {
        SettleConnectPromise(false);
        return;
      }
      UpdateConnectionState(Disconnected, event);
      if !retry.wanted || !retry.enabled {
        SettleConnectPromise(false);
        return;
      }
      ArmReconnect();
    }

    method AttemptFailed()
      requires waiters.Valid()
      modifies this, waiters`waiters, waiters`table, waiters.made
      ensures waiters.Valid() && Model() == FailAttempt(old(Model()))
    {
      deadlines := deadlines.(connect := false);
      Reschedule(ConnectFailed);
      SettleConnectPromise(false);
    }

    method AttemptToConnect(attempt: Attempt)
      requires waiters.Valid()
      modifies this, waiters`waiters, waiters`table, waiters.made
      ensures waiters.Valid() && Model() == AttemptConnect(old(Model()), attempt)
    {
      if link.status == Disposed || !retry.wanted {
        SettleConnectPromise(false);
        return;
      }
      if link.status == Connecting { return; }
      retry := retry.(timer := None);
      match attempt {
        case NoCredential => AttemptFailed();
        case Refused =>
          DisposeCurrentTransport();
          retry := retry.(enabled := false);
          AttemptFailed();
        case FactoryThrows =>
          DisposeCurrentTransport();
          AttemptFailed();
        case Opens =>
          DisposeCurrentTransport();
          var t := link.nextTransport;
          link := link.(transport := Some(t), unclosed := link.unclosed + {t}, nextTransport := t + 1,
                        serverInfo := false);
          retry := retry.(authFailed := false);
          UpdateConnectionState(Connecting, ConnectRequest);
          deadlines := deadlines.(connect := true);
      }
    }

    method StartConnect(attempt: Attempt)
      requires waiters.Valid()
      modifies this, waiters`waiters, waiters`table, waiters.made
      ensures waiters.Valid() && Model() == DoConnect(old(Model()), attempt)
    {
      if link.status == Disposed || link.status == Connected || connects.promise.Some? { return; }
      var promise := connects.next;
      retry := retry.(wanted := true);
      connects := connects.(hooks := Some(promise), next := promise + 1);
      assert Model() == NewConnectPromise(old(Model()));
      AttemptToConnect(attempt);
      connects := connects.(promise := Some(promise));
    }

    method StartVerification()
      modifies this`live
      ensures Model() == Verify(old(Model()))
    {
      if link.transport.None? || live.verification == link.transport { return; }
      live := live.(verification := link.transport, verifying := live.verifying + {link.transport.value});
    }

    method EnsureConnection(verify: bool, attempt: Attempt)
      requires waiters.Valid()
      modifies this, waiters`waiters, waiters`table, waiters.made
      ensures waiters.Valid() && Model() == DoEnsureConnected(old(Model()), verify, attempt)
    {
      if link.status == Disposed { return; }
      retry := retry.(wanted := true);
      if link.status == Connected {
        if verify { StartVerification(); }
      } else if link.status == Connecting {
      } else if connects.promise.Some? {
        AttemptToConnect(attempt);
      } else {
        StartConnect(attempt);
      }
    }

    method ScheduleNextHeartbeat(waited: bool)
      modifies this`live
      ensures Model() == AfterProbe(old(Model()), waited)
    {
      if waited && link.status == Connected { live := live.(heartbeat := true); }
    }

    method CountLivenessFailure()
      requires waiters.Valid()
      modifies this, waiters`waiters, waiters`table, waiters.made
      ensures waiters.Valid() && Model() == RecordLivenessFailure(old(Model()))
    {
      if live.failures + 1 < LIVENESS_THRESHOLD {
        live := live.(failures := live.failures + 1);
        return;
      }
      live := live.(failures := 0);
      DisposeCurrentTransport();
      Reschedule(LivenessTimedOut);
    }

    method SendPing(drives: bool, heartbeat: bool, sendOk: bool)
      requires waiters.Valid()
      modifies this, waiters`waiters, waiters`table, waiters.made
      ensures waiters.Valid() && Model() == Ping(old(Model()), drives, heartbeat, sendOk)
    {
      if link.status != Connected || link.transport.None? {
        ScheduleNextHeartbeat(heartbeat);
        return;
      }
      if live.probe.Some? {
        var p := live.probe.value;
        live := live.(probe := Some(Probe(p.drivesLiveness, p.heartbeatWaits || heartbeat)));
        return;
      }
      if sendOk {
        live := live.(probe := Some(Probe(drives, heartbeat)));
        return;
      }
      if drives { CountLivenessFailure(); }
      ScheduleNextHeartbeat(heartbeat);
    }

    // ----------------------------------------------------------- the callers

    method Connect(attempt: Attempt)
      requires Valid()
      modifies this, waiters`waiters, waiters`table, waiters.made
      ensures Valid() && Model() == Step(old(Model()), Event.Connect(attempt))
    {
      StartConnect(attempt);
      EngineKeepsGood(old(Model()), Event.Connect(attempt), Model());
    }

    method EnsureConnected(verify: bool, attempt: Attempt)
      requires Valid()
      modifies this, waiters`waiters, waiters`table, waiters.made
      ensures Valid() && Model() == Step(old(Model()), Event.EnsureConnected(verify, attempt))
    {
      EnsureConnection(verify, attempt);
      EngineKeepsGood(old(Model()), Event.EnsureConnected(verify, attempt), Model());
    }

    method SetReconnectEnabled(enabled: bool)
      requires Valid()
      modifies this, waiters`waiters, waiters`table, waiters.made
      ensures Valid() && Model() == Step(old(Model()), Event.SetReconnectEnabled(enabled))
    {
      retry := retry.(enabled := enabled);
      if !enabled { retry := retry.(timer := None); }
      EngineKeepsGood(old(Model()), Event.SetReconnectEnabled(enabled), Model());
    }

    method Dismantle()
      requires waiters.Valid()
      modifies this, waiters`waiters, waiters`table, waiters.made
      ensures waiters.Valid() && Model() == DoClose(old(Model()))
    {
      if link.status == Disposed { return; }
      retry := retry.(wanted := false, timer := None);
      connects := connects.(promise := None, hooks := None);
      DisposeCurrentTransport();
      waiters.Clear(W.ClientClosed);
      RejectPendingSendQueue();
      live := live.(probe := None);
      link := link.(serverInfo := false, slots := {});
      UpdateConnectionState(Disposed, Dispose);
    }

    method Close()
      requires Valid()
      modifies this, waiters`waiters, waiters`table, waiters.made
      ensures Valid() && Model() == Step(old(Model()), Event.Close)
    {
      Dismantle();
      EngineKeepsGood(old(Model()), Event.Close, Model());
    }

    method AddRequest(requestId: Option<string>, timed: bool, judge: W.Message -> W.Reply, sendOk: bool)
      requires waiters.Valid()
      modifies this, waiters, waiters.made
      ensures waiters.Valid() && Model() == DoRpc(old(Model()), requestId, timed, judge, sendOk)
      ensures Grown(old(waiters.made), waiters.made)
    {
      var waiter := waiters.Add(requestId, timed, judge);
      var key := waiter.key;
      if link.transport.Some? && link.status == Connected && sendOk {
      } else if link.status == Connecting {
        sends := sends.(queue := sends.queue + [Q.Send(sends.next, Some(key))], next := sends.next + 1);
      } else {
        waiters.Cancel(waiter);
      }
    }

    method SendRequest(requestId: Option<string>, timed: bool, judge: W.Message -> W.Reply, sendOk: bool)
      requires Valid()
      modifies this, waiters, waiters.made
      ensures Valid() && Model() == Step(old(Model()), Rpc(requestId, timed, judge, sendOk))
      ensures Grown(old(waiters.made), waiters.made)
    {
      AddRequest(requestId, timed, judge, sendOk);
      EngineKeepsGood(old(Model()), Rpc(requestId, timed, judge, sendOk), Model());
    }

    method CancelRequest(key: nat)
      requires Valid()
      modifies this, waiters`waiters, waiters`table, waiters.made
      ensures Valid() && Model() == Step(old(Model()), CancelRpc(key))
    {
      CancelWaiter(key);
      EngineKeepsGood(old(Model()), CancelRpc(key), Model());
    }

    method MeasureLatency(sendOk: bool)
      requires Valid()
      modifies this, waiters`waiters, waiters`table, waiters.made
      ensures Valid() && Model() == Step(old(Model()), Event.MeasureLatency(sendOk))
    {
      SendPing(false, false, sendOk);
      EngineKeepsGood(old(Model()), Event.MeasureLatency(sendOk), Model());
    }

    method AttachTerminalSlot(slot: int)
      requires Valid()
      modifies this, waiters`waiters, waiters`table, waiters.made
      ensures Valid() && Model() == Step(old(Model()), AttachTerminal(slot))
    {
      link := link.(slots := link.slots + {slot});
      EngineKeepsGood(old(Model()), AttachTerminal(slot), Model());
    }

    // ------------------------------------------------------------- the timers

    method FireReconnect(attempt: Attempt)
      requires waiters.Valid()
      modifies this, waiters`waiters, waiters`table, waiters.made
      ensures waiters.Valid() && Model() == OnTimer(old(Model()), ReconnectFires(attempt))
    {
      if retry.timer.None? { return; }
      retry := retry.(timer := None);
      if retry.wanted { AttemptToConnect(attempt); }
    }

    method OnReconnectTimeout(attempt: Attempt)
      requires Valid()
      modifies this, waiters`waiters, waiters`table, waiters.made
      ensures Valid() && Model() == Step(old(Model()), ReconnectFires(attempt))
    {
      FireReconnect(attempt);
      EngineKeepsGood(old(Model()), ReconnectFires(attempt), Model());
    }

    method OnConnectTimeout()
      requires Valid()
      modifies this, waiters`waiters, waiters`table, waiters.made
      ensures Valid() && Model() == Step(old(Model()), ConnectTimeoutFires)
    {
      if deadlines.connect {
        if link.status == Connecting {
          DisposeCurrentTransport();
          Reschedule(ConnectTimedOut);
        } else {
          deadlines := deadlines.(connect := false);
        }
      }
      EngineKeepsGood(old(Model()), ConnectTimeoutFires, Model());
    }

    method OnErrorTimeout()
      requires Valid()
      modifies this, waiters`waiters, waiters`table, waiters.made
      ensures Valid() && Model() == Step(old(Model()), ErrorTimerFires)
    {
      if deadlines.error {
        deadlines := deadlines.(error := false);
        if link.status == Connected || link.status == Connecting { Reschedule(TransportFailed); }
      }
      EngineKeepsGood(old(Model()), ErrorTimerFires, Model());
    }

    method OnHeartbeat(sendOk: bool)
      requires Valid()
      modifies this, waiters`waiters, waiters`table, waiters.made
      ensures Valid() && Model() == Step(old(Model()), HeartbeatFires(sendOk))
    {
      if live.heartbeat {
        live := live.(heartbeat := false);
        SendPing(true, true, sendOk);
      }
      EngineKeepsGood(old(Model()), HeartbeatFires(sendOk), Model());
    }

    method OnProbeTimeout()
      requires Valid()
      modifies this, waiters`waiters, waiters`table, waiters.made
      ensures Valid() && Model() == Step(old(Model()), ProbeTimesOut)
    {
      if live.probe.Some? {
        var probe := live.probe.value;
        live := live.(probe := None);
        if probe.drivesLiveness { CountLivenessFailure(); }
        ScheduleNextHeartbeat(probe.heartbeatWaits);
      }
      EngineKeepsGood(old(Model()), ProbeTimesOut, Model());
    }

    method DropSend(id: nat)
      requires waiters.Valid()
      modifies this, waiters`waiters, waiters`table, waiters.made
      ensures waiters.Valid() && Model() == DoSendTimeout(old(Model()), id)
    {
      var found := Q.IndexOf(sends.queue, id);
      if found.None? { return; }
      var i := found.value;
      var waiter := sends.queue[i].waiter;
      sends := sends.(queue := sends.queue[..i] + sends.queue[i + 1..], fates := sends.fates[id := Q.Failed]);
      CancelWaiters(if waiter.Some? then [waiter.value] else []);
    }

    method OnSendTimeout(id: nat)
      requires Valid()
      modifies this, waiters`waiters, waiters`table, waiters.made
      ensures Valid() && Model() == Step(old(Model()), SendTimesOut(id))
    {
      DropSend(id);
      EngineKeepsGood(old(Model()), SendTimesOut(id), Model());
    }

    method OnWaiterTimeout(key: nat)
      requires Valid()
      modifies this, waiters`waiters, waiters`table, waiters.made
      ensures Valid() && Model() == Step(old(Model()), WaiterTimesOut(key))
    {
      if key < |waiters.made| { waiters.Timeout(waiters.made[key]); }
      EngineKeepsGood(old(Model()), WaiterTimesOut(key), Model());
    }

    // -------------------------------------------------- the transport callbacks

    method OnOpen(tid: Tid, helloOk: bool)
      requires Valid()
      modifies this, waiters`waiters, waiters`table, waiters.made
      ensures Valid() && Model() == Step(old(Model()), Event.OnOpen(tid, helloOk))
    {
      if link.transport == Some(tid) {
        deadlines := deadlines.(error := false);
        if !helloOk { Reschedule(HelloSendFailed); }
      }
      EngineKeepsGood(old(Model()), Event.OnOpen(tid, helloOk), Model());
    }

    method LoseTransport(authFailure: bool)
      requires waiters.Valid()
      modifies this, waiters`waiters, waiters`table, waiters.made
      ensures waiters.Valid()
      ensures var was := old(Model()).(deadlines := Deadlines(false, false));
              Model() == ScheduleReconnect(
                was.(retry := was.retry.(authFailed := was.retry.authFailed || authFailure)), TransportClosed)
    {
      deadlines := Deadlines(false, false);
      retry := retry.(authFailed := retry.authFailed || authFailure);
      Reschedule(TransportClosed);
    }

    method OnClose(tid: Tid, authFailure: bool)
      requires Valid()
      modifies this, waiters`waiters, waiters`table, waiters.made
      ensures Valid() && Model() == Step(old(Model()), Event.OnClose(tid, authFailure))
    {
      if link.transport == Some(tid) { LoseTransport(authFailure); }
      EngineKeepsGood(old(Model()), Event.OnClose(tid, authFailure), Model());
    }

    method OnError(tid: Tid, generic: bool)
      requires Valid()
      modifies this, waiters`waiters, waiters`table, waiters.made
      ensures Valid() && Model() == Step(old(Model()), Event.OnError(tid, generic))
    {
      if link.transport == Some(tid) {
        deadlines := deadlines.(connect := false);
        if generic {
          deadlines := deadlines.(error := true);
        } else {
          deadlines := deadlines.(error := false);
          Reschedule(TransportFailed);
        }
      }
      EngineKeepsGood(old(Model()), Event.OnError(tid, generic), Model());
    }

    // The part of the handshake that touches no waiter. Returns the waiters of the
    // queued sends that the transport did not take.
    method FinishHandshake(throws: set<nat>) returns (failed: seq<nat>)
      requires link.status == Connecting
      modifies this
      ensures var s := BecomeConnected(old(Model())); var open := link.transport.Some?;
              && Model() == s.(sends := Q.Flush(s.sends, open, throws), connects := SettleConnect(s.connects, true))
              && failed == Q.FailedWaiters(s.sends.queue, open, throws)
    {
      deadlines := deadlines.(connect := false);
      retry := retry.(attempt := 0, delays := []);
      UpdateConnectionState(Connected, HelloServerInfo);
      live := live.(heartbeat := true);
      failed := FlushPendingSendQueue(throws);
      SettleConnectPromise(true);
    }

    method DeliverServerInfo(msg: W.Message, throws: set<nat>)
      requires waiters.Valid()
      modifies this, waiters`waiters, waiters`table, waiters.made
      ensures waiters.Valid() && Model() == DoServerInfo(old(Model()), msg, throws)
    {
      link := link.(serverInfo := true);
      var failed := [];
      if link.status == Connecting { failed := FinishHandshake(throws); }
      waiters.Resolve(msg);
      CancelWaiters(failed);
    }

    method OnServerInfo(tid: Tid, msg: W.Message, throws: set<nat>)
      requires Valid()
      modifies this, waiters`waiters, waiters`table, waiters.made
      ensures Valid() && Model() == Step(old(Model()), Event.OnServerInfo(tid, msg, throws))
    {
      if link.transport == Some(tid) {
        live := live.(failures := 0);
        DeliverServerInfo(msg, throws);
      }
      EngineKeepsGood(old(Model()), Event.OnServerInfo(tid, msg, throws), Model());
    }

    method OnPong(tid: Tid)
      requires Valid()
      modifies this, waiters`waiters, waiters`table, waiters.made
      ensures Valid() && Model() == Step(old(Model()), Event.OnPong(tid))
    {
      if link.transport == Some(tid) {
        var waited := live.probe.Some? && live.probe.value.heartbeatWaits;
        live := live.(failures := 0, probe := None);
        ScheduleNextHeartbeat(waited);
      }
      EngineKeepsGood(old(Model()), Event.OnPong(tid), Model());
    }

    method OnHelloRejected(tid: Tid, auth: bool)
      requires Valid()
      modifies this, waiters`waiters, waiters`table, waiters.made
      ensures Valid() && Model() == Step(old(Model()), Event.OnHelloRejected(tid, auth))
    {
      if link.transport == Some(tid) {
        live, retry := live.(failures := 0), retry.(authFailed := auth);
      }
      EngineKeepsGood(old(Model()), Event.OnHelloRejected(tid, auth), Model());
    }

    method OnSessionMessage(tid: Tid, msg: W.Message)
      requires Valid()
      modifies this, waiters`waiters, waiters`table, waiters.made
      ensures Valid() && Model() == Step(old(Model()), OnSession(tid, msg))
    {
      if link.transport == Some(tid) {
        live := live.(failures := 0);
        waiters.Resolve(msg);
      }
      EngineKeepsGood(old(Model()), OnSession(tid, msg), Model());
    }

    method OnInvalidMessage(tid: Tid, requestId: Option<string>)
      requires Valid()
      modifies this, waiters`waiters, waiters`table, waiters.made
      ensures Valid() && Model() == Step(old(Model()), OnInvalid(tid, requestId))
    {
      if link.transport == Some(tid) && requestId.Some? { waiters.RejectForRequestId(requestId.value); }
      EngineKeepsGood(old(Model()), OnInvalid(tid, requestId), Model());
    }

    method OnBinaryFrame(tid: Tid)
      requires Valid()
      modifies this, waiters`waiters, waiters`table, waiters.made
      ensures Valid() && Model() == Step(old(Model()), OnBinary(tid))
    {
      if link.transport == Some(tid) { live := live.(failures := 0); }
      EngineKeepsGood(old(Model()), OnBinary(tid), Model());
    }

    // ------------------------------------------- continuations of session RPCs

    method FinishVerification(tid: Tid)
      modifies this`live
      ensures Model() == EndVerification(old(Model()), tid)
    {
      if live.verification == Some(tid) { live := live.(verification := None); }
      live := live.(verifying := live.verifying - {tid});
    }

    method FailVerification(tid: Tid, attempt: Attempt)
      requires waiters.Valid()
      modifies this, waiters`waiters, waiters`table, waiters.made
      ensures waiters.Valid() && Model() == DoVerificationFails(old(Model()), tid, attempt)
    {
      if link.transport == Some(tid) && link.status == Connected {
        DisposeCurrentTransport();
        Reschedule(VerificationFailed);
        EnsureConnection(false, attempt);
      }
      FinishVerification(tid);
    }

    method OnVerificationFailed(tid: Tid, attempt: Attempt)
      requires Valid()
      modifies this, waiters`waiters, waiters`table, waiters.made
      ensures Valid() && Model() == Step(old(Model()), VerificationFails(tid, attempt))
    {
      if tid in live.verifying { FailVerification(tid, attempt); }
      EngineKeepsGood(old(Model()), VerificationFails(tid, attempt), Model());
    }

    method OnVerificationSucceeded(tid: Tid)
      requires Valid()
      modifies this, waiters`waiters, waiters`table, waiters.made
      ensures Valid() && Model() == Step(old(Model()), VerificationSucceeds(tid))
    {
      if tid in live.verifying { FinishVerification(tid); }
      EngineKeepsGood(old(Model()), VerificationSucceeds(tid), Model());
    }

    method OnReleaseFailed()
      requires Valid()
      modifies this, waiters`waiters, waiters`table, waiters.made
      ensures Valid() && Model() == Step(old(Model()), ReleaseFails)
    {
      DisposeCurrentTransport();
      Reschedule(TransportClosed);
      EngineKeepsGood(old(Model()), ReleaseFails, Model());
    }

    // ---------------------------------------------------------- whole histories

    method HandleCall(e: Event)
      requires Valid() && !FromTransport(e) && !FromTimer(e)
      modifies this, waiters, waiters.made
      ensures Valid() && Model() == Step(old(Model()), e) && Grown(old(waiters.made), waiters.made)
    {
      match e
      case Connect(attempt) => Connect(attempt);
      case EnsureConnected(verify, attempt) => EnsureConnected(verify, attempt);
      case SetReconnectEnabled(enabled) => SetReconnectEnabled(enabled);
      case Close => Close();
      case Rpc(requestId, timed, judge, sendOk) => SendRequest(requestId, timed, judge, sendOk);
      case CancelRpc(key) => CancelRequest(key);
      case MeasureLatency(sendOk) => MeasureLatency(sendOk);
      case AttachTerminal(slot) => AttachTerminalSlot(slot);
      case VerificationSucceeds(tid) => OnVerificationSucceeded(tid);
      case VerificationFails(tid, attempt) => OnVerificationFailed(tid, attempt);
      case ReleaseFails => OnReleaseFailed();
    }

    method HandleTimer(e: Event)
      requires Valid() && FromTimer(e)
      modifies this, waiters, waiters.made
      ensures Valid() && Model() == Step(old(Model()), e) && Grown(old(waiters.made), waiters.made)
    {
      match e
      case ReconnectFires(attempt) => OnReconnectTimeout(attempt);
      case ConnectTimeoutFires => OnConnectTimeout();
      case ErrorTimerFires => OnErrorTimeout();
      case HeartbeatFires(sendOk) => OnHeartbeat(sendOk);
      case ProbeTimesOut => OnProbeTimeout();
      case WaiterTimesOut(key) => OnWaiterTimeout(key);
      case SendTimesOut(id) => OnSendTimeout(id);
    }

    method HandleCallback(e: Event)
      requires Valid() && FromTransport(e)
      modifies this, waiters, waiters.made
      ensures Valid() && Model() == Step(old(Model()), e) && Grown(old(waiters.made), waiters.made)
    {
      match e
      case OnOpen(tid, helloOk) => OnOpen(tid, helloOk);
      case OnClose(tid, authFailure) => OnClose(tid, authFailure);
      case OnError(tid, generic) => OnError(tid, generic);
      case OnServerInfo(tid, msg, throws) => OnServerInfo(tid, msg, throws);
      case OnPong(tid) => OnPong(tid);
      case OnHelloRejected(tid, auth) => OnHelloRejected(tid, auth);
      case OnSession(tid, msg) => OnSessionMessage(tid, msg);
      case OnInvalid(tid, requestId) => OnInvalidMessage(tid, requestId);
      case OnBinary(tid) => OnBinaryFrame(tid);
    }

    method Handle(e: Event)
      requires Valid()
      modifies this, waiters, waiters.made
      ensures Valid() && Model() == Step(old(Model()), e) && Grown(old(waiters.made), waiters.made)
    {
      if FromTransport(e) {
        HandleCallback(e);
      } else if FromTimer(e) {
        HandleTimer(e);
      } else {
        HandleCall(e);
      }
    }

    method HandleNext(backoff: Backoff, enabled: bool, es: seq<Event>, i: nat)
      requires waiters.Valid() && i < |es| && Model() == At(Initial(backoff, enabled), es, i)
      modifies this, waiters, waiters.made
      ensures waiters.Valid() && Model() == At(Initial(backoff, enabled), es, i + 1)
      ensures Grown(old(waiters.made), waiters.made)
    {
      RunIsGood(backoff, enabled, es, i);
      Handle(es[i]);
    }
  }

  lemma RunIsGood(backoff: Backoff, enabled: bool, es: seq<Event>, i: nat)
    requires i <= |es|
    ensures Good(At(Initial(backoff, enabled), es, i))
  {
    P.PromiseOkAt(backoff, enabled, es, i);
    R.WaitersExistAt(backoff, enabled, es, i);
  }

  // A new object after the first `n` events.
  method ReplayFirst(backoff: Backoff, enabled: bool, es: seq<Event>, n: nat) returns (client: DaemonClient)
    requires n <= |es|
    ensures client.waiters.Valid() && client.Model() == At(Initial(backoff, enabled), es, n)
    ensures fresh(client) && fresh(client.waiters)
    ensures forall k | 0 <= k < |client.waiters.made| :: fresh(client.waiters.made[k])
  {
    if n == 0 {
      client := new DaemonClient(backoff, enabled);
    } else {
      client := ReplayFirst(backoff, enabled, es, n - 1);
      client.HandleNext(backoff, enabled, es, n - 1);
    }
  }

  // The object goes through the states of the engine's run, so that what is proved of
  // every run of the engine holds of the object.
  method Replay(backoff: Backoff, enabled: bool, es: seq<Event>) returns (client: DaemonClient)
    ensures client.Valid() && client.Model() == At(Initial(backoff, enabled), es, |es|)
  {
    client := ReplayFirst(backoff, enabled, es, |es|);
    RunIsGood(backoff, enabled, es, |es|);
  }
}
