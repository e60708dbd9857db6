/** Every sink of every session over every run of the home server, with no assumption on what
    clients send: each is a sink that some run of its own reaches, so all that holds of a lone sink
    holds of it; and each call pushed on one knows its place. */
module HomeSinks {
  import opened Prelude
  import opened Relation
  import opened HomeServer
  import opened HomeCalls
  import Sinks = EventSink

  // ------------------------------------------------------------------ sinks of a session

  ghost predicate SessionReached(o: Session, driven: bool) {
    Sinks.Reached(o.events, driven) && forall app :: app in o.apps ==> Sinks.Reached(o.apps[app], driven)
  }

  ghost predicate AllReached(objects: seq<Session>, driven: bool) {
    forall j :: 0 <= j < |objects| ==> SessionReached(objects[j], driven)
  }

  /** The action drops neither a receiver nor a send future. */
  predicate DrivenAction(a: Action) {
    a.EventChannel? || a.AppChannel? ==> !(a.action.Close? || a.action.Cancel?)
  }

  predicate DrivenRun(run: seq<Action>) {
    forall i :: 0 <= i < |run| ==> DrivenAction(run[i])
  }

  lemma EventsMove(s: Server, j: nat, a: Sinks.Action<Event>, driven: bool)
    requires AllReached(s.objects, driven) && j < |s.objects| && (driven ==> Sinks.Driven([a]))
    ensures AllReached(SetEvents(s, j, Sinks.Step(s.objects[j].events, a)).objects, driven)
  {
    assert SessionReached(s.objects[j], driven);
    Sinks.ReachedStep(s.objects[j].events, a, driven);
  }

  lemma AppMoves(s: Server, j: nat, app: AppId, a: Sinks.Action<nat>, driven: bool)
    requires AllReached(s.objects, driven) && j < |s.objects| && (driven ==> Sinks.Driven([a]))
    ensures AllReached(SetAppSink(s, j, app, Sinks.Step(AppSink(s.objects[j], app), a)).objects, driven)
  {
    var o := s.objects[j];
    assert SessionReached(o, driven);
    Sinks.ReachedEmpty<nat>(driven);
    Sinks.ReachedStep(AppSink(o, app), a, driven);
    var o' := o.(apps := o.apps[app := Sinks.Step(AppSink(o, app), a)]);
    assert SessionReached(o', driven);
  }

  lemma PushEventReaches(s: Server, to: ProfileId, event: Event, driven: bool)
    requires AllReached(s.objects, driven)
    ensures AllReached(PushEvent(s, to, event).objects, driven)
  {
    if LiveSession(s, to).Some? { EventsMove(s, LiveSession(s, to).value, Sinks.Calls(Sinks.Push(event)), driven); }
  }

  lemma PushCallReaches(s: Server, c: nat, driven: bool)
    requires AllReached(s.objects, driven) && c < |s.calls|
    ensures AllReached(PushCall(s, c).objects, driven)
  {
    var live := LiveSession(s, s.calls[c].callee);
    if live.Some? { AppMoves(s, live.value, s.calls[c].app, Sinks.Calls(Sinks.Push(c)), driven); }
  }

  lemma PollReaches(cs: Scheme, s: Server, i: nat, driven: bool)
    requires AllReached(s.objects, driven) && i < |s.tasks|
    ensures AllReached(PollStep(cs, s, i).objects, driven)
  {
    var f := Finish(s, i, true);
    match s.tasks[i]
    case LoginTask(ctx, named, found) => Sinks.ReachedEmpty<Event>(driven);
    case RequestTask(half, hosted) => PushEventReaches(f, half.peerId, PairingRequest(half), driven);
    case ResponseTask(ctx, relation, to, stored) => PushEventReaches(f, to, PairingResponse(relation), driven);
    case CallTask(c, stored) => if c < |s.calls| { PushCallReaches(f, c, driven); }
    case _ =>
  }

  lemma SessionStepReaches(s: Server, j: nat, what: SessionRequest, driven: bool)
    requires AllReached(s.objects, driven)
    ensures AllReached(SessionStep(s, j, what).objects, driven)
  {
    if j < |s.objects| && s.objects[j].live {
      match what
      case Events => EventsMove(s, j, Sinks.Calls(Sinks.Subscribe), driven);
      case Checkin(app) => AppMoves(s, j, app, Sinks.Calls(Sinks.Subscribe), driven);
      case Drop => assert SessionReached(s.objects[j], driven);
      case _ =>
    }
  }

  lemma StepReaches(cs: Scheme, s: Server, a: Action, driven: bool)
    requires AllReached(s.objects, driven) && (driven ==> DrivenAction(a))
    ensures AllReached(Step(cs, s, a).objects, driven)
  {
    match a
    case OnSession(j, what) => SessionStepReaches(s, j, what, driven);
    case Poll(i) => if i < |s.tasks| { PollReaches(cs, s, i, driven); }
    case EventChannel(j, c, ca) => if j < |s.objects| { EventsMove(s, j, Sinks.Chan(c, ca), driven); }
    case AppChannel(j, app, c, ca) => if j < |s.objects| { AppMoves(s, j, app, Sinks.Chan(c, ca), driven); }
    case _ =>
  }

  /** In every run of the server each sink of each session is a reachable sink, and a driven one if
      the run drops no receiver and no send future. */
  lemma {:induction false} EverySinkReached(cs: Scheme, home: Signer, run: seq<Action>, driven: bool)
    requires driven ==> DrivenRun(run)
    ensures AllReached(Run(cs, home, run).objects, driven)
  {
    if run != [] {
      EverySinkReached(cs, home, run[..|run| - 1], driven);
      StepReaches(cs, Run(cs, home, run[..|run| - 1]), run[|run| - 1], driven);
    }
  }

  /** `sink` is the call sink of `app` in session `j`. */
  ghost predicate IsCallSink(s: Server, j: nat, app: AppId, sink: Sinks.Sink<nat>) {
    j < |s.objects| && app in s.objects[j].apps && sink == s.objects[j].apps[app]
  }

  // ------------------------------------------------------------------ generations in a session

  /** `events` of a session: what was pushed between the n-th and the next call of it is in the n-th
      stream, once, and in no other; superseded streams have one warning, the current one none. */
  lemma EventGenerations(cs: Scheme, home: Signer, run: seq<Action>, j: nat, c: nat, n: nat, event: Event)
    requires j < |Run(cs, home, run).objects| && c < |Run(cs, home, run).objects[j].events.chans|
    ensures var sink := Run(cs, home, run).objects[j].events;
            && Sinks.Ledger(sink.chans[c])[Sinks.Item(n, event)] ==
               (if Sinks.PushedInto(sink.calls, n, event, c) then 1 else 0)
            && Sinks.Ledger(sink.chans[c])[Sinks.Warning] == (if c + 1 < Sinks.Subscriptions(sink.calls) then 1 else 0)
  {
    var sink := Run(cs, home, run).objects[j].events;
    EverySinkReached(cs, home, run, false);
    assert SessionReached(Run(cs, home, run).objects[j], false);
    Sinks.ReachedHasInvariant(sink, false);
    Sinks.LedgerCounts(sink, c, n, event);
  }

  /** The same for `checkin_app`, application by application. */
  lemma CallGenerations(cs: Scheme, home: Signer, run: seq<Action>, j: nat, app: AppId, sink: Sinks.Sink<nat>,
                        c: nat, n: nat, call: nat)
    requires IsCallSink(Run(cs, home, run), j, app, sink) && c < |sink.chans|
    ensures Sinks.Ledger(sink.chans[c])[Sinks.Item(n, call)] ==
              if Sinks.PushedInto(sink.calls, n, call, c) then 1 else 0
    ensures Sinks.Ledger(sink.chans[c])[Sinks.Warning] == if c + 1 < Sinks.Subscriptions(sink.calls) then 1 else 0
  {
    EverySinkReached(cs, home, run, false);
    assert SessionReached(Run(cs, home, run).objects[j], false);
    Sinks.ReachedHasInvariant(sink, false);
    Sinks.LedgerCounts(sink, c, n, call);
  }

  /** Listened to or not, the event sink of a session holds each event pushed on it in exactly one
      place, and no other. */
  lemma EachEventHeldOnce(cs: Scheme, home: Signer, run: seq<Action>, j: nat, n: nat, event: Event)
    requires j < |Run(cs, home, run).objects|
    ensures var sink := Run(cs, home, run).objects[j].events;
            Sinks.Contents(sink)[Sinks.Item(n, event)] ==
            if n < |sink.calls| && sink.calls[n] == Sinks.Push(event) then 1 else 0
  {
    var sink := Run(cs, home, run).objects[j].events;
    EverySinkReached(cs, home, run, false);
    assert SessionReached(Run(cs, home, run).objects[j], false);
    Sinks.ReachedHasInvariant(sink, false);
    Sinks.EachPushHeldOnce(sink, n, event);
  }

  /** So does the call sink of every application, checked in or not. */
  lemma EachCallHeldOnce(cs: Scheme, home: Signer, run: seq<Action>, j: nat, app: AppId, sink: Sinks.Sink<nat>,
                         n: nat, call: nat)
    requires IsCallSink(Run(cs, home, run), j, app, sink)
    ensures Sinks.Contents(sink)[Sinks.Item(n, call)] ==
              if n < |sink.calls| && sink.calls[n] == Sinks.Push(call) then 1 else 0
  {
    EverySinkReached(cs, home, run, false);
    assert SessionReached(Run(cs, home, run).objects[j], false);
    Sinks.ReachedHasInvariant(sink, false);
    Sinks.EachPushHeldOnce(sink, n, call);
  }

  /** In a run that drops no receiver and no send future, a quiet stream of a session has delivered
      exactly its due, the first one the buffered events in push order. */
  lemma QuietEventsDelivered(cs: Scheme, home: Signer, run: seq<Action>, j: nat, c: nat)
    requires DrivenRun(run) && j < |Run(cs, home, run).objects|
    requires var sink := Run(cs, home, run).objects[j].events; c < |sink.chans| && Sinks.Quiet(sink.chans[c])
    ensures var sink := Run(cs, home, run).objects[j].events;
            && multiset(sink.chans[c].received) == Sinks.Owed(sink.calls, c)
            && (c == 0 ==>
                  Sinks.Early(sink.chans[0].received, |Sinks.Buffered(sink.calls)|) == Sinks.Buffered(sink.calls))
  {
    EverySinkReached(cs, home, run, true);
    assert SessionReached(Run(cs, home, run).objects[j], true);
    Sinks.ReachedHasInvariant(Run(cs, home, run).objects[j].events, true);
    Sinks.QuietChannelDelivered(Run(cs, home, run).objects[j].events, c);
  }

  lemma QuietCallsDelivered(cs: Scheme, home: Signer, run: seq<Action>, j: nat, app: AppId, sink: Sinks.Sink<nat>,
                            c: nat)
    requires DrivenRun(run) && IsCallSink(Run(cs, home, run), j, app, sink)
    requires c < |sink.chans| && Sinks.Quiet(sink.chans[c])
    ensures multiset(sink.chans[c].received) == Sinks.Owed(sink.calls, c)
    ensures c == 0 ==> Sinks.Early(sink.chans[0].received, |Sinks.Buffered(sink.calls)|) == Sinks.Buffered(sink.calls)
  {
    EverySinkReached(cs, home, run, true);
    assert SessionReached(Run(cs, home, run).objects[j], true);
    Sinks.ReachedHasInvariant(sink, true);
    Sinks.QuietChannelDelivered(sink, c);
  }

  // ------------------------------------------------------------------ what a delivery does

  /** The live session of the profile, if there is one, holds one message more, the event at its
      position; nothing else in the server has changed. */
  ghost predicate EventDelivered(s: Server, s': Server, to: ProfileId, event: Event) {
    match LiveSession(s, to)
    case None => s' == s
    case Some(j) =>
      && |s'.objects| == |s.objects|
      && var was, now := s.objects[j], s'.objects[j];
      && s' == s.(objects := s.objects[j := was.(events := now.events)])
      && Sinks.Contents(now.events) == Sinks.Contents(was.events) + multiset{Sinks.Item(|was.events.calls|, event)}
  }

  lemma PushDeliversEvent(s: Server, to: ProfileId, event: Event)
    requires AllReached(s.objects, false)
    ensures EventDelivered(s, PushEvent(s, to, event), to, event)
  {
    if LiveSession(s, to).Some? {
      var o := s.objects[LiveSession(s, to).value];
      assert SessionReached(o, false);
      Sinks.ReachedHasInvariant(o.events, false);
      Sinks.PushAddsOne(o.events, event);
    }
  }

  /** The application of the live session, if there is one, holds one message more, the call, which
      knows that place; the caller waits either way and nothing else has changed. */
  ghost predicate CallDelivered(s: Server, s': Server, c: nat)
    requires c < |s.calls|
  {
    var r := s.calls[c];
    match LiveSession(s, r.callee)
    case None => s' == s.(calls := s.calls[c := r.(awaiting := true)])
    case Some(j) =>
      && |s'.objects| == |s.objects| && r.app in s'.objects[j].apps
      && var was, now := AppSink(s.objects[j], r.app), s'.objects[j].apps[r.app];
      && s' == SetAppSink(s, j, r.app, now).(
                 calls := s.calls[c := r.(awaiting := true, slot := Some(Slot(j, r.app, |was.calls|)))])
      && Sinks.Contents(now) == Sinks.Contents(was) + multiset{Sinks.Item(|was.calls|, c)}
  }

  lemma PushDeliversCall(s: Server, c: nat)
    requires AllReached(s.objects, false) && c < |s.calls|
    ensures CallDelivered(s, PushCall(s, c), c)
  {
    var live := LiveSession(s, s.calls[c].callee);
    if live.Some? {
      var o, app := s.objects[live.value], s.calls[c].app;
      assert SessionReached(o, false);
      Sinks.ReachedEmpty<nat>(false);
      Sinks.ReachedHasInvariant(AppSink(o, app), false);
      Sinks.PushAddsOne(AppSink(o, app), c);
    }
  }

  // ------------------------------------------------------------------ a call and its slot

  /** Call `c` is recorded as pushed to `slot`. */
  predicate Recorded(calls: seq<CallRecord>, c: nat, slot: Slot) {
    c < |calls| && calls[c].slot == Some(slot) && calls[c].app == slot.app
  }

  ghost predicate PushesRecorded(calls: seq<CallRecord>, pushes: seq<Sinks.Call<nat>>, j: nat, app: AppId) {
    forall n :: 0 <= n < |pushes| && pushes[n].Push? ==> Recorded(calls, pushes[n].value, Slot(j, app, n))
  }

  ghost predicate SlotsRecorded(objects: seq<Session>, calls: seq<CallRecord>) {
    forall j, app :: 0 <= j < |objects| && app in objects[j].apps ==>
      PushesRecorded(calls, objects[j].apps[app].calls, j, app)
  }

  lemma RecordedLater(objects: seq<Session>, calls: seq<CallRecord>, calls': seq<CallRecord>)
    requires SlotsRecorded(objects, calls) && |calls| <= |calls'|
    requires forall c :: 0 <= c < |calls| ==> Extends(calls[c], calls'[c])
    ensures SlotsRecorded(objects, calls')
  {
    forall j, app | 0 <= j < |objects| && app in objects[j].apps
      ensures PushesRecorded(calls', objects[j].apps[app].calls, j, app)
    {
      assert PushesRecorded(calls, objects[j].apps[app].calls, j, app);
    }
  }

  lemma RecordedElsewhere(objects: seq<Session>, objects': seq<Session>, calls: seq<CallRecord>)
    requires SlotsRecorded(objects, calls) && |objects| <= |objects'|
    requires forall j :: 0 <= j < |objects| ==> objects'[j].apps == objects[j].apps
    requires forall j :: |objects| <= j < |objects'| ==> objects'[j].apps == map[]
    ensures SlotsRecorded(objects', calls)
  {
  }

  lemma RecordedInSink(s: Server, j: nat, app: AppId, sink: Sinks.Sink<nat>, calls: seq<CallRecord>)
    requires SlotsRecorded(s.objects, calls) && j < |s.objects| && PushesRecorded(calls, sink.calls, j, app)
    ensures SlotsRecorded(SetAppSink(s, j, app, sink).objects, calls)
  {
    var s' := SetAppSink(s, j, app, sink);
    forall i, app' | 0 <= i < |s'.objects| && app' in s'.objects[i].apps
      ensures PushesRecorded(calls, s'.objects[i].apps[app'].calls, i, app')
    {
      if i != j || app' != app { assert PushesRecorded(calls, s.objects[i].apps[app'].calls, i, app'); }
    }
  }

  /** A sink step other than a push. */
  lemma RecordedAfterStep(s: Server, j: nat, app: AppId, a: Sinks.Action<nat>)
    requires SlotsRecorded(s.objects, s.calls) && j < |s.objects| && !(a.Calls? && a.call.Push?)
    ensures SlotsRecorded(SetAppSink(s, j, app, Sinks.Step(AppSink(s.objects[j], app), a)).objects, s.calls)
  {
    var sink := AppSink(s.objects[j], app);
    Sinks.StepRecordsCall(sink, a);
    assert PushesRecorded(s.calls, sink.calls, j, app);
    RecordedInSink(s, j, app, Sinks.Step(sink, a), s.calls);
  }

  lemma PushCallRecords(s: Server, c: nat)
    requires SlotsRecorded(s.objects, s.calls) && c < |s.calls| && s.calls[c].slot.None?
    ensures SlotsRecorded(PushCall(s, c).objects, PushCall(s, c).calls)
  {
    var s', r := PushCall(s, c), s.calls[c];
    PushCallGrows(s, c);
    RecordedLater(s.objects, s.calls, s'.calls);
    var live := LiveSession(s, r.callee);
    if live.Some? {
      var j, sink := live.value, AppSink(s.objects[live.value], r.app);
      Sinks.StepRecordsCall(sink, Sinks.Calls(Sinks.Push(c)));
      assert PushesRecorded(s'.calls, sink.calls, j, r.app);
      assert Recorded(s'.calls, c, Slot(j, r.app, |sink.calls|));
      RecordedInSink(s, j, r.app, Sinks.PushTo(sink, c), s'.calls);
    }
  }

  lemma PollCallRecords(cs: Scheme, s: Server, i: nat)
    requires CallTasksFresh(s) && SlotsRecorded(s.objects, s.calls) && i < |s.tasks| && s.tasks[i].CallTask?
    ensures SlotsRecorded(PollStep(cs, s, i).objects, PollStep(cs, s, i).calls)
  {
    var c := s.tasks[i].call;
    PushCallRecords(Finish(s, i, true), c);
    RecordedLater(s.objects, s.calls, FailCall(Finish(s, i, false), c).calls);
  }

  /** A poll of any other future leaves the calls and the call sinks alone. */
  lemma PollOtherRecords(cs: Scheme, s: Server, i: nat)
    requires SlotsRecorded(s.objects, s.calls) && i < |s.tasks| && !s.tasks[i].CallTask?
    ensures SlotsRecorded(PollStep(cs, s, i).objects, PollStep(cs, s, i).calls)
  {
    var f := Finish(s, i, true);
    match s.tasks[i]
    case RequestTask(half, hosted) => EventTouchesNoCalls(f, half.peerId, PairingRequest(half));
    case ResponseTask(ctx, relation, to, stored) => EventTouchesNoCalls(f, to, PairingResponse(relation));
    case LoginTask(ctx, named, found) => RecordedElsewhere(s.objects, PollStep(cs, s, i).objects, s.calls);
    case _ =>
  }

  lemma EventTouchesNoCalls(s: Server, to: ProfileId, event: Event)
    requires SlotsRecorded(s.objects, s.calls)
    ensures SlotsRecorded(PushEvent(s, to, event).objects, PushEvent(s, to, event).calls)
  {
    RecordedElsewhere(s.objects, PushEvent(s, to, event).objects, s.calls);
  }

  lemma SessionRecords(s: Server, j: nat, what: SessionRequest)
    requires SlotsRecorded(s.objects, s.calls)
    ensures SlotsRecorded(SessionStep(s, j, what).objects, SessionStep(s, j, what).calls)
  {
    if j < |s.objects| && s.objects[j].live && what.Checkin? {
      RecordedAfterStep(s, j, what.app, Sinks.Calls(Sinks.Subscribe));
    } else {
      RecordedElsewhere(s.objects, SessionStep(s, j, what).objects, s.calls);
    }
  }

  lemma StepRecords(cs: Scheme, s: Server, a: Action)
    requires CallTasksFresh(s) && SlotsRecorded(s.objects, s.calls)
    ensures SlotsRecorded(Step(cs, s, a).objects, Step(cs, s, a).calls)
  {
    match a
    case Ask(ctx, request) => RecordedLater(s.objects, s.calls, AskStep(cs, s, ctx, request).calls);
    case OnSession(j, what) => SessionRecords(s, j, what);
    case Poll(i) =>
      if i < |s.tasks| && s.tasks[i].CallTask? { PollCallRecords(cs, s, i); }
      else if i < |s.tasks| { PollOtherRecords(cs, s, i); }
    case EventChannel(j, c, ca) => RecordedElsewhere(s.objects, Step(cs, s, a).objects, s.calls);
    case AppChannel(j, app, c, ca) =>
      if j < |s.objects| && app in s.objects[j].apps { RecordedAfterStep(s, j, app, Sinks.Chan(c, ca)); }
    case OnCall(c, step) => CallStepRecords(s, c, step);
  }

  lemma CallStepRecords(s: Server, c: nat, step: CallAction)
    requires SlotsRecorded(s.objects, s.calls)
    ensures SlotsRecorded(CallStep(s, c, step).objects, CallStep(s, c, step).calls)
  {
    CallStepGrows(s, c, step);
    RecordedLater(s.objects, s.calls, CallStep(s, c, step).calls);
  }

  lemma {:induction false} EverySlotRecorded(cs: Scheme, home: Signer, run: seq<Action>)
    ensures SlotsRecorded(Run(cs, home, run).objects, Run(cs, home, run).calls)
  {
    if run != [] {
      var before := run[..|run| - 1];
      EverySlotRecorded(cs, home, before);
      OutcomesAreAnswers(cs, home, before);
      StepRecords(cs, Run(cs, home, before), run[|run| - 1]);
    }
  }

  // ------------------------------------------------------------------ delivery

  lemma ReceivedIsRecorded(cs: Scheme, home: Signer, run: seq<Action>, c: nat, j: nat, app: AppId, k: nat, x: nat)
    requires ReceivedAt(Run(cs, home, run), c, j, app, k, x)
    ensures var sink := Run(cs, home, run).objects[j].apps[app];
            Sinks.Invariant(sink) && Recorded(Run(cs, home, run).calls, c, Slot(j, app, sink.chans[k].received[x].pos))
  {
    var s := Run(cs, home, run);
    var sink := s.objects[j].apps[app];
    var m := sink.chans[k].received[x];
    EverySinkReached(cs, home, run, false);
    assert SessionReached(s.objects[j], false);
    Sinks.ReachedHasInvariant(sink, false);
    assert m in Sinks.Ledger(sink.chans[k]);
    Sinks.HeldWasPushed(sink, m);
    EverySlotRecorded(cs, home, run);
    assert PushesRecorded(s.calls, sink.calls, j, app);
  }

  /** In every run a call is delivered at most once, and only on a stream that `checkin_app` handed
      out for its own application. */
  lemma DeliveredOnce(cs: Scheme, home: Signer, run: seq<Action>, c: nat,
                      j: nat, app: AppId, k: nat, x: nat, j': nat, app': AppId, k': nat, x': nat)
    requires ReceivedAt(Run(cs, home, run), c, j, app, k, x)
    requires ReceivedAt(Run(cs, home, run), c, j', app', k', x')
    ensures j == j' && app == app' && k == k' && x == x'
    ensures c < |Run(cs, home, run).calls| && Run(cs, home, run).calls[c].app == app
    ensures exists n: nat, ctx, relation :: PlacedAt(cs, home, run, n, c, ctx, app, relation)
  {
    var s := Run(cs, home, run);
    ReceivedIsRecorded(cs, home, run, c, j, app, k, x);
    ReceivedIsRecorded(cs, home, run, c, j', app', k', x');
    Sinks.ReceivedOnce(s.objects[j].apps[app], s.objects[j].apps[app].chans[k].received[x], k, x, k', x');
    var n := EveryCallWasPlaced(cs, home, run, c);
  }

  /** The callee holds a call exactly when it came off some stream. */
  lemma DeliveredExactly(cs: Scheme, home: Signer, run: seq<Action>, c: nat)
    ensures Delivered(Run(cs, home, run), c) <==>
            exists j: nat, app, k: nat, x: nat :: ReceivedAt(Run(cs, home, run), c, j, app, k, x)
  {
    var s := Run(cs, home, run);
    if Delivered(s, c) {
      var slot := s.calls[c].slot.value;
      var chans := s.objects[slot.session].apps[slot.app].chans;
      var k :| 0 <= k < |chans| && Sinks.Item(slot.pos, c) in chans[k].received;
      var x :| 0 <= x < |chans[k].received| && chans[k].received[x] == Sinks.Item(slot.pos, c);
      assert ReceivedAt(s, c, slot.session, slot.app, k, x);
    }
    if exists j: nat, app, k: nat, x: nat :: ReceivedAt(s, c, j, app, k, x) {
      var j: nat, app, k: nat, x: nat :| ReceivedAt(s, c, j, app, k, x);
      ReceivedIsRecorded(cs, home, run, c, j, app, k, x);
      assert s.objects[j].apps[app].chans[k].received[x] == Sinks.Item(s.calls[c].slot.value.pos, c);
    }
  }

  /** For each step that places a call at most one item comes off all streams of all sessions, and
      the stream it comes off is one of the application that the step asked for. */
  lemma OneReceiptPerPlacing(cs: Scheme, home: Signer, run: seq<Action>, n: nat, c: nat, ctx: Context, asked: AppId,
                             relation: Proof, j: nat, app: AppId, k: nat, x: nat,
                             j': nat, app': AppId, k': nat, x': nat)
    requires PlacedAt(cs, home, run, n, c, ctx, asked, relation)
    requires ReceivedAt(Run(cs, home, run), c, j, app, k, x)
    requires ReceivedAt(Run(cs, home, run), c, j', app', k', x')
    ensures app == asked && j == j' && app == app' && k == k' && x == x'
  {
    PlacingIsRecorded(cs, home, run, n, c, ctx, asked, relation);
    DeliveredOnce(cs, home, run, c, j, app, k, x, j', app', k', x');
  }
}
