/** What every step of the home server keeps, and so what holds in every reachable state: the two
    stores agree, the session map is never stale, and everything queued in a session was validated
    for that session's owner. */
module HomeInvariants {
  import opened Prelude
  import opened Relation
  import opened HomeServer
  import Sinks = EventSink

  // ------------------------------------------------------------------ the parts

  predicate ProfileUnder(cs: Scheme, own: OwnProfile, id: ProfileId) {
    own.profile.id == id && cs.matches(own.profile.publicKey, id)
  }

  /** The stores have the same keys, the public entry is the public part of the hosted one, and
      each profile sits under its own id, which is the hash of its key. */
  ghost predicate StoresAgree(cs: Scheme, s: Server) {
    && s.hosted.Keys == s.public.Keys
    && forall id :: id in s.hosted ==> ProfileUnder(cs, s.hosted[id], id) && s.public[id] == s.hosted[id].profile
  }

  /** Every entry refers to a live session of that profile. */
  ghost predicate SessionsLive(sessions: map<ProfileId, nat>, objects: seq<Session>) {
    forall id :: id in sessions ==>
      sessions[id] < |objects| && objects[sessions[id]].live && objects[sessions[id]].ctx.peerId == id
  }

  /** The half-proof was accepted under a key that hashes to its signer. */
  ghost predicate SignedHalf(cs: Scheme, half: HalfProof) {
    exists key :: cs.matches(key, half.signerId) && ValidHalf(cs, half, key)
  }

  /** The proof validates between `from` and the owner. */
  predicate RelationBetween(cs: Scheme, relation: Proof, from: Context, owner: Context) {
    && ValidContext(cs, from)
    && ValidProof(cs, relation, from.peerId, from.peerKey, owner.peerId, owner.peerKey)
  }

  ghost predicate EventSound(cs: Scheme, owner: Context, event: Event) {
    match event
    case PairingRequest(half) => half.peerId == owner.peerId && SignedHalf(cs, half)
    case PairingResponse(relation) => exists from :: RelationBetween(cs, relation, from, owner)
  }

  ghost predicate EventsSound(cs: Scheme, owner: Context, calls: seq<Sinks.Call<Event>>) {
    forall n :: 0 <= n < |calls| && calls[n].Push? ==> EventSound(cs, owner, calls[n].value)
  }

  ghost predicate SessionSound(cs: Scheme, o: Session) {
    && ValidContext(cs, o.ctx)
    && Sinks.Invariant(o.events)
    && EventsSound(cs, o.ctx, o.events.calls)
    && forall app :: app in o.apps ==> Sinks.Invariant(o.apps[app])
  }

  ghost predicate SessionsSound(cs: Scheme, objects: seq<Session>) {
    forall j :: 0 <= j < |objects| ==> SessionSound(cs, objects[j])
  }

  predicate StoredUnder(cs: Scheme, stored: Option<OwnProfile>, id: ProfileId) {
    stored.Some? ==> ProfileUnder(cs, stored.value, id)
  }

  ghost predicate TaskSound(cs: Scheme, i: nat, t: Task, calls: seq<CallRecord>) {
    match t
    case RegisterTask(own, _) => cs.matches(own.profile.publicKey, own.profile.id)
    case UpdateTask(own, _) => cs.matches(own.profile.publicKey, own.profile.id)
    case LoginTask(ctx, named, _) => ValidContext(cs, ctx) && named == ctx.peerId
    case RequestTask(half, _) => SignedHalf(cs, half)
    case ResponseTask(ctx, relation, to, stored) => ValidContext(cs, ctx) && StoredUnder(cs, stored, to)
    case CallTask(c, stored) =>
      c < |calls| && calls[c].task == i && calls[c].slot.None? && StoredUnder(cs, stored, calls[c].callee)
    case Finished(_) => true
  }

  ghost predicate TasksSound(cs: Scheme, tasks: seq<Task>, calls: seq<CallRecord>) {
    forall i :: 0 <= i < |tasks| ==> TaskSound(cs, i, tasks[i], calls)
  }

  /** The call in `slot` of a session of `owner` is meant for that very slot and owner, and its
      caller is related to the owner. */
  predicate CallSound(cs: Scheme, owner: Context, calls: seq<CallRecord>, c: nat, slot: Slot) {
    && c < |calls|
    && calls[c].slot == Some(slot) && calls[c].app == slot.app && calls[c].callee == owner.peerId
    && RelationBetween(cs, calls[c].relation, calls[c].caller, owner)
  }

  /** Every call pushed on the sink of `app` in session `j`. */
  ghost predicate PushesSound(cs: Scheme, owner: Context, calls: seq<CallRecord>, pushes: seq<Sinks.Call<nat>>,
                              j: nat, app: AppId) {
    forall n :: 0 <= n < |pushes| && pushes[n].Push? ==>
      CallSound(cs, owner, calls, pushes[n].value, Slot(j, app, n))
  }

  ghost predicate SlotsSound(cs: Scheme, objects: seq<Session>, calls: seq<CallRecord>) {
    forall j, app :: 0 <= j < |objects| && app in objects[j].apps ==>
      PushesSound(cs, objects[j].ctx, calls, objects[j].apps[app].calls, j, app)
  }

  ghost predicate CallersKnown(cs: Scheme, calls: seq<CallRecord>) {
    forall c :: 0 <= c < |calls| ==> ValidContext(cs, calls[c].caller)
  }

  ghost predicate Invariant(cs: Scheme, s: Server) {
    && StoresAgree(cs, s)
    && SessionsLive(s.sessions, s.objects)
    && SessionsSound(cs, s.objects)
    && TasksSound(cs, s.tasks, s.calls)
    && SlotsSound(cs, s.objects, s.calls)
    && CallersKnown(cs, s.calls)
  }

  // ------------------------------------------------------------------ requests

  lemma AddTaskKeeps(cs: Scheme, s: Server, t: Task)
    requires Invariant(cs, s) && TaskSound(cs, |s.tasks|, t, s.calls)
    ensures Invariant(cs, AddTask(s, t))
  {
  }

  lemma NewCallsKeep(cs: Scheme, s: Server, records: seq<CallRecord>)
    requires Invariant(cs, s) && forall k :: 0 <= k < |records| ==> ValidContext(cs, records[k].caller)
    ensures Invariant(cs, s.(calls := s.calls + records))
  {
    var calls' := s.calls + records;
    forall i | 0 <= i < |s.tasks| ensures TaskSound(cs, i, s.tasks[i], calls') {
      assert TaskSound(cs, i, s.tasks[i], s.calls);
    }
    SlotsKeptByCalls(cs, s.objects, s.calls, calls');
  }

  /** New calls may come, and calls change in anything but what identifies them. */
  lemma SlotsKeptByCalls(cs: Scheme, objects: seq<Session>, calls: seq<CallRecord>, calls': seq<CallRecord>)
    requires SlotsSound(cs, objects, calls) && |calls| <= |calls'|
    requires forall c :: 0 <= c < |calls| ==>
               || calls'[c] == calls[c]
               || calls[c].slot.None?
               || calls'[c] == calls[c].(awaiting := calls'[c].awaiting, answer := calls'[c].answer,
                   outcome := calls'[c].outcome)
    ensures SlotsSound(cs, objects, calls')
  {
    forall j, app | 0 <= j < |objects| && app in objects[j].apps
      ensures PushesSound(cs, objects[j].ctx, calls', objects[j].apps[app].calls, j, app)
    {
      assert PushesSound(cs, objects[j].ctx, calls, objects[j].apps[app].calls, j, app);
    }
  }

  /** A sink of a session may change, as long as what was pushed on it is sound. */
  lemma SlotsKeptBySink(cs: Scheme, s: Server, j: nat, app: AppId, sink: Sinks.Sink<nat>)
    requires SlotsSound(cs, s.objects, s.calls) && j < |s.objects|
    requires PushesSound(cs, s.objects[j].ctx, s.calls, sink.calls, j, app)
    ensures SlotsSound(cs, SetAppSink(s, j, app, sink).objects, s.calls)
  {
    var s' := SetAppSink(s, j, app, sink);
    forall i, app' | 0 <= i < |s'.objects| && app' in s'.objects[i].apps
      ensures PushesSound(cs, s'.objects[i].ctx, s.calls, s'.objects[i].apps[app'].calls, i, app')
    {
      if i != j || app' != app {
        assert PushesSound(cs, s.objects[i].ctx, s.calls, s.objects[i].apps[app'].calls, i, app');
      }
    }
  }

  /** What the sink of `app` has recorded so far is sound, an untouched application included. */
  lemma SinkPushesSound(cs: Scheme, s: Server, j: nat, app: AppId)
    requires SlotsSound(cs, s.objects, s.calls) && j < |s.objects|
    ensures PushesSound(cs, s.objects[j].ctx, s.calls, AppSink(s.objects[j], app).calls, j, app)
  {
  }

  lemma StoredSound(cs: Scheme, s: Server, id: ProfileId)
    requires StoresAgree(cs, s)
    ensures StoredUnder(cs, Get(s.hosted, id), id)
  {
  }

  lemma FutureSound(cs: Scheme, s: Server, ctx: Context, request: Request)
    requires Invariant(cs, s) && ValidContext(cs, ctx) && OwnProof(s.home, Ask(ctx, request))
    ensures TaskSound(cs, |s.tasks|, FutureOf(cs, s, ctx, request), s.calls + NewCalls(s, ctx, request))
  {
    match request
    case Register(own, half) =>
    case Login(proof) =>
    case PairRequest(half) =>
      if ValidHalf(cs, half, ctx.peerKey) && half.signerId == ctx.peerId { assert SignedHalf(cs, half); }
    case PairResponse(relation) =>
      if PeerId(relation, ctx.peerId).Some? { StoredSound(cs, s, PeerId(relation, ctx.peerId).value); }
    case PlaceCall(app, relation) =>
      if PeerId(relation, ctx.peerId).Some? { StoredSound(cs, s, PeerId(relation, ctx.peerId).value); }
  }

  lemma AskKeeps(cs: Scheme, s: Server, ctx: Context, request: Request)
    requires Invariant(cs, s) && OwnProof(s.home, Ask(ctx, request))
    ensures Invariant(cs, AskStep(cs, s, ctx, request))
  {
    if ValidContext(cs, ctx) {
      FutureSound(cs, s, ctx, request);
      var s1 := s.(calls := s.calls + NewCalls(s, ctx, request));
      NewCallsKeep(cs, s, NewCalls(s, ctx, request));
      AddTaskKeeps(cs, s1, FutureOf(cs, s, ctx, request));
    }
  }

  // ------------------------------------------------------------------ polls

  lemma FinishKeeps(cs: Scheme, s: Server, i: nat, ok: bool)
    requires Invariant(cs, s) && i < |s.tasks|
    ensures Invariant(cs, Finish(s, i, ok))
  {
  }

  lemma WriteProfileKeeps(cs: Scheme, s: Server, own: OwnProfile, entry: Entry)
    requires Invariant(cs, s) && cs.matches(own.profile.publicKey, own.profile.id)
    ensures Invariant(cs, WriteProfile(s, own, entry))
  {
  }

  lemma OpenSessionKeeps(cs: Scheme, s: Server, ctx: Context)
    requires Invariant(cs, s) && ValidContext(cs, ctx)
    ensures Invariant(cs, OpenSession(s, ctx, ctx.peerId))
  {
    Sinks.RunConserves<Event>([]);
    var o := NewSession(ctx);
    assert SessionSound(cs, o);
    var s' := OpenSession(s, ctx, ctx.peerId);
    forall j | 0 <= j < |s'.objects| ensures SessionSound(cs, s'.objects[j]) {
      if j < |s.objects| { assert SessionSound(cs, s.objects[j]); }
    }
    SlotsKept(cs, s.objects, s'.objects, s.calls);
  }

  /** Sessions may come, and change anything but their context and call sinks. */
  lemma SlotsKept(cs: Scheme, objects: seq<Session>, objects': seq<Session>, calls: seq<CallRecord>)
    requires SlotsSound(cs, objects, calls) && |objects| <= |objects'|
    requires forall j :: 0 <= j < |objects| ==>
               objects'[j].ctx == objects[j].ctx && objects'[j].apps == objects[j].apps
    requires forall j :: |objects| <= j < |objects'| ==> objects'[j].apps == map[]
    ensures SlotsSound(cs, objects', calls)
  {
  }

  lemma SessionWithEvents(cs: Scheme, o: Session, sink: Sinks.Sink<Event>)
    requires SessionSound(cs, o) && Sinks.Invariant(sink) && EventsSound(cs, o.ctx, sink.calls)
    ensures SessionSound(cs, o.(events := sink))
  {
  }

  lemma SetEventsKeeps(cs: Scheme, s: Server, j: nat, sink: Sinks.Sink<Event>)
    requires Invariant(cs, s) && j < |s.objects|
    requires Sinks.Invariant(sink) && EventsSound(cs, s.objects[j].ctx, sink.calls)
    ensures Invariant(cs, SetEvents(s, j, sink))
  {
    var s' := SetEvents(s, j, sink);
    SessionWithEvents(cs, s.objects[j], sink);
    SessionsSoundExcept(cs, s.objects, j, s'.objects[j]);
    SlotsKept(cs, s.objects, s'.objects, s.calls);
  }

  lemma SessionsSoundExcept(cs: Scheme, objects: seq<Session>, j: nat, o: Session)
    requires SessionsSound(cs, objects) && j < |objects| && SessionSound(cs, o)
    ensures SessionsSound(cs, objects[j := o])
  {
  }

  lemma PushedEventSound(cs: Scheme, o: Session, event: Event)
    requires SessionSound(cs, o) && EventSound(cs, o.ctx, event)
    ensures Sinks.Invariant(Sinks.PushTo(o.events, event))
    ensures EventsSound(cs, o.ctx, Sinks.PushTo(o.events, event).calls)
  {
    Sinks.PushKeepsInvariant(o.events, event);
    Sinks.StepRecordsCall(o.events, Sinks.Calls(Sinks.Push(event)));
  }

  lemma PushEventKeeps(cs: Scheme, s: Server, to: ProfileId, event: Event)
    requires Invariant(cs, s)
    requires LiveSession(s, to).Some? ==> EventSound(cs, s.objects[LiveSession(s, to).value].ctx, event)
    ensures Invariant(cs, PushEvent(s, to, event))
  {
    if LiveSession(s, to).Some? {
      var j := LiveSession(s, to).value;
      PushedEventSound(cs, s.objects[j], event);
      SetEventsKeeps(cs, s, j, Sinks.PushTo(s.objects[j].events, event));
    }
  }

  /** The stored key is the key of the session, because both hash to the same id. */
  lemma ResponseSound(cs: Scheme, s: Server, ctx: Context, relation: Proof, to: ProfileId, stored: Option<OwnProfile>)
    requires cs.CollisionFree() && Invariant(cs, s) && ValidContext(cs, ctx) && StoredUnder(cs, stored, to)
    requires ProofHolds(cs, relation, ctx, stored) && LiveSession(s, to).Some?
    ensures RelationBetween(cs, relation, ctx, s.objects[LiveSession(s, to).value].ctx)
  {
    var o := s.objects[LiveSession(s, to).value];
    assert SessionSound(cs, o);
    assert o.ctx.peerKey == stored.value.profile.publicKey;
  }

  lemma SinksAfterCall(cs: Scheme, s: Server, j: nat, app: AppId, sink: Sinks.Sink<nat>)
    requires SessionsSound(cs, s.objects) && j < |s.objects| && Sinks.Invariant(sink)
    ensures SessionsSound(cs, SetAppSink(s, j, app, sink).objects)
  {
    var s' := SetAppSink(s, j, app, sink);
    forall i | 0 <= i < |s'.objects| ensures SessionSound(cs, s'.objects[i]) {
      assert SessionSound(cs, s.objects[i]);
    }
  }

  lemma PushCallKeepsSinks(cs: Scheme, s: Server, c: nat)
    requires SessionsSound(cs, s.objects) && c < |s.calls|
    ensures SessionsSound(cs, PushCall(s, c).objects)
  {
    if LiveSession(s, s.calls[c].callee).Some? {
      var j := LiveSession(s, s.calls[c].callee).value;
      assert SessionSound(cs, s.objects[j]);
      var sink := AppSink(s.objects[j], s.calls[c].app);
      Sinks.RunConserves<nat>([]);
      Sinks.PushKeepsInvariant(sink, c);
      SinksAfterCall(cs, s, j, s.calls[c].app, Sinks.PushTo(sink, c));
    }
  }

  /** The push of call `c` on the sink of its application is sound in its new slot. */
  lemma NewSlotSound(cs: Scheme, s: Server, c: nat, j: nat)
    requires c < |s.calls| && LiveSession(s, s.calls[c].callee) == Some(j) && SessionsLive(s.sessions, s.objects)
    requires RelationBetween(cs, s.calls[c].relation, s.calls[c].caller, s.objects[j].ctx)
    ensures CallSound(cs, s.objects[j].ctx, PushCall(s, c).calls, c,
                      Slot(j, s.calls[c].app, |AppSink(s.objects[j], s.calls[c].app).calls|))
  {
  }

  lemma OtherSlotsSound(cs: Scheme, s: Server, c: nat)
    requires SlotsSound(cs, s.objects, s.calls) && c < |s.calls| && s.calls[c].slot.None?
    ensures SlotsSound(cs, s.objects, PushCall(s, c).calls)
  {
    SlotsKeptByCalls(cs, s.objects, s.calls, PushCall(s, c).calls);
  }

  lemma PushCallKeepsSlots(cs: Scheme, s: Server, c: nat)
    requires Invariant(cs, s) && c < |s.calls| && s.calls[c].slot.None?
    requires var live := LiveSession(s, s.calls[c].callee); live.Some? ==>
               RelationBetween(cs, s.calls[c].relation, s.calls[c].caller, s.objects[live.value].ctx)
    ensures SlotsSound(cs, PushCall(s, c).objects, PushCall(s, c).calls)
  {
    OtherSlotsSound(cs, s, c);
    var live, app := LiveSession(s, s.calls[c].callee), s.calls[c].app;
    if live.Some? {
      var j, s1 := live.value, s.(calls := PushCall(s, c).calls);
      var sink := AppSink(s.objects[j], app);
      NewSlotSound(cs, s, c, j);
      SinkPushesSound(cs, s1, j, app);
      Sinks.StepRecordsCall(sink, Sinks.Calls(Sinks.Push(c)));
      PushesSoundLonger(cs, s.objects[j].ctx, s1.calls, sink.calls, j, app, c);
      SlotsKeptBySink(cs, s1, j, app, Sinks.PushTo(sink, c));
    }
  }

  lemma PushesSoundLonger(cs: Scheme, owner: Context, calls: seq<CallRecord>, pushes: seq<Sinks.Call<nat>>,
                          j: nat, app: AppId, c: nat)
    requires PushesSound(cs, owner, calls, pushes, j, app)
    requires CallSound(cs, owner, calls, c, Slot(j, app, |pushes|))
    ensures PushesSound(cs, owner, calls, pushes + [Sinks.Push(c)], j, app)
  {
  }

  /** Once its own future no longer refers to it, a call may change in any way but its slot. */
  lemma TasksKept(cs: Scheme, tasks: seq<Task>, calls: seq<CallRecord>, c: nat, r: CallRecord)
    requires TasksSound(cs, tasks, calls) && c < |calls|
    requires r.task == calls[c].task && r.callee == calls[c].callee
    requires r.slot == calls[c].slot || r.task >= |tasks| || !tasks[r.task].CallTask?
    ensures TasksSound(cs, tasks, calls[c := r])
  {
    forall i | 0 <= i < |tasks| ensures TaskSound(cs, i, tasks[i], calls[c := r]) {
      assert TaskSound(cs, i, tasks[i], calls);
    }
  }

  lemma PushCallKeeps(cs: Scheme, s: Server, c: nat)
    requires Invariant(cs, s) && c < |s.calls| && s.calls[c].slot.None?
    requires s.calls[c].task < |s.tasks| && s.tasks[s.calls[c].task].Finished?
    requires var live := LiveSession(s, s.calls[c].callee); live.Some? ==>
               RelationBetween(cs, s.calls[c].relation, s.calls[c].caller, s.objects[live.value].ctx)
    ensures Invariant(cs, PushCall(s, c))
  {
    PushCallKeepsSinks(cs, s, c);
    PushCallKeepsSlots(cs, s, c);
    TasksKept(cs, s.tasks, s.calls, c, PushCall(s, c).calls[c]);
  }

  /** A call record may change in anything but what identifies it. */
  lemma SetCallKeeps(cs: Scheme, s: Server, c: nat, r: CallRecord)
    requires Invariant(cs, s) && c < |s.calls|
    requires r == s.calls[c].(awaiting := r.awaiting, answer := r.answer, outcome := r.outcome)
    ensures Invariant(cs, SetCall(s, c, r))
  {
    TasksKept(cs, s.tasks, s.calls, c, r);
    SlotsKeptByCalls(cs, s.objects, s.calls, s.calls[c := r]);
  }

  lemma PollCallKeeps(cs: Scheme, s: Server, i: nat)
    requires cs.CollisionFree() && Invariant(cs, s) && i < |s.tasks| && s.tasks[i].CallTask?
    ensures Invariant(cs, PollStep(cs, s, i))
  {
    var c, stored := s.tasks[i].call, s.tasks[i].stored;
    assert TaskSound(cs, i, s.tasks[i], s.calls);
    var r := s.calls[c];
    if ProofHolds(cs, r.relation, r.caller, stored) && r.callee in s.hosted {
      var f := Finish(s, i, true);
      FinishKeeps(cs, s, i, true);
      if LiveSession(f, r.callee).Some? { ResponseSound(cs, f, r.caller, r.relation, r.callee, stored); }
      PushCallKeeps(cs, f, c);
    } else {
      FinishKeeps(cs, s, i, false);
      SetCallKeeps(cs, Finish(s, i, false), c, r.(outcome := Some(Failed)));
    }
  }

  lemma PollKeeps(cs: Scheme, s: Server, i: nat)
    requires cs.CollisionFree() && Invariant(cs, s) && i < |s.tasks|
    ensures Invariant(cs, PollStep(cs, s, i))
  {
    assert TaskSound(cs, i, s.tasks[i], s.calls);
    FinishKeeps(cs, s, i, true);
    FinishKeeps(cs, s, i, false);
    var f := Finish(s, i, true);
    match s.tasks[i]
    case RegisterTask(own, free) => WriteProfileKeeps(cs, f, own, Registered(own));
    case UpdateTask(own, found) => WriteProfileKeeps(cs, f, own, Updated(own));
    case LoginTask(ctx, named, found) => OpenSessionKeeps(cs, f, ctx);
    case RequestTask(half, hosted) => PushEventKeeps(cs, f, half.peerId, PairingRequest(half));
    case ResponseTask(ctx, relation, to, stored) =>
      if ProofHolds(cs, relation, ctx, stored) && to in s.hosted {
        if LiveSession(f, to).Some? { ResponseSound(cs, f, ctx, relation, to, stored); }
        PushEventKeeps(cs, f, to, PairingResponse(relation));
      }
    case CallTask(c, stored) => PollCallKeeps(cs, s, i);
    case Finished(_) =>
  }

  // ------------------------------------------------------------------ sessions and streams

  lemma SetAppSinkKeeps(cs: Scheme, s: Server, j: nat, app: AppId, sink: Sinks.Sink<nat>)
    requires Invariant(cs, s) && j < |s.objects| && Sinks.Invariant(sink)
    requires var was := AppSink(s.objects[j], app).calls; sink.calls == was || sink.calls == was + [Sinks.Subscribe]
    ensures Invariant(cs, SetAppSink(s, j, app, sink))
  {
    SinksAfterCall(cs, s, j, app, sink);
    SinkPushesSound(cs, s, j, app);
    SlotsKeptBySink(cs, s, j, app, sink);
  }

  lemma DropKeeps(cs: Scheme, s: Server, j: nat)
    requires Invariant(cs, s) && j < |s.objects|
    ensures Invariant(cs, DropSession(s, j))
  {
    var s' := DropSession(s, j);
    forall i | 0 <= i < |s'.objects| ensures SessionSound(cs, s'.objects[i]) {
      assert SessionSound(cs, s.objects[i]);
    }
    SlotsKept(cs, s.objects, s'.objects, s.calls);
  }

  lemma UnregisterKeeps(cs: Scheme, s: Server, id: ProfileId)
    requires Invariant(cs, s)
    ensures Invariant(cs, DoUnregister(s, id))
  {
    AddTaskKeeps(cs, s, Finished(id in s.public && id in s.hosted));
  }

  lemma EventsKeeps(cs: Scheme, s: Server, j: nat)
    requires Invariant(cs, s) && j < |s.objects|
    ensures Invariant(cs, SetEvents(s, j, Sinks.SubscribeTo(s.objects[j].events)))
  {
    assert SessionSound(cs, s.objects[j]);
    var a: Sinks.Action<Event> := Sinks.Calls(Sinks.Subscribe);
    Sinks.StepKeepsInvariant(s.objects[j].events, a);
    Sinks.StepRecordsCall(s.objects[j].events, a);
    SetEventsKeeps(cs, s, j, Sinks.Step(s.objects[j].events, a));
  }

  lemma CheckinKeeps(cs: Scheme, s: Server, j: nat, app: AppId)
    requires Invariant(cs, s) && j < |s.objects|
    ensures Invariant(cs, SetAppSink(s, j, app, Sinks.SubscribeTo(AppSink(s.objects[j], app))))
  {
    assert SessionSound(cs, s.objects[j]);
    Sinks.RunConserves<nat>([]);
    var sink, a: Sinks.Action<nat> := AppSink(s.objects[j], app), Sinks.Calls(Sinks.Subscribe);
    Sinks.StepKeepsInvariant(sink, a);
    Sinks.StepRecordsCall(sink, a);
    SetAppSinkKeeps(cs, s, j, app, Sinks.Step(sink, a));
  }

  lemma SessionKeeps(cs: Scheme, s: Server, j: nat, what: SessionRequest)
    requires Invariant(cs, s)
    ensures Invariant(cs, SessionStep(s, j, what))
  {
    if j < |s.objects| && s.objects[j].live {
      assert SessionSound(cs, s.objects[j]);
      match what
      case Update(own) => AddTaskKeeps(cs, s, UpdateFuture(s, s.objects[j].ctx, own));
      case Unregister => UnregisterKeeps(cs, s, s.objects[j].ctx.peerId);
      case Events => EventsKeeps(cs, s, j);
      case Checkin(app) => CheckinKeeps(cs, s, j, app);
      case Drop => DropKeeps(cs, s, j);
    }
  }

  lemma StreamKeeps(cs: Scheme, s: Server, a: Action)
    requires Invariant(cs, s) && (a.EventChannel? || a.AppChannel?)
    ensures Invariant(cs, Step(cs, s, a))
  {
    if a.session < |s.objects| {
      var o := s.objects[a.session];
      assert SessionSound(cs, o);
      if a.EventChannel? {
        Sinks.StepKeepsInvariant(o.events, Sinks.Chan(a.chan, a.action));
        Sinks.StepRecordsCall(o.events, Sinks.Chan(a.chan, a.action));
        SetEventsKeeps(cs, s, a.session, Sinks.Step(o.events, Sinks.Chan(a.chan, a.action)));
      } else if a.app in o.apps {
        Sinks.StepKeepsInvariant(o.apps[a.app], Sinks.Chan(a.chan, a.action));
        Sinks.StepRecordsCall(o.apps[a.app], Sinks.Chan(a.chan, a.action));
        SetAppSinkKeeps(cs, s, a.session, a.app, Sinks.Step(o.apps[a.app], Sinks.Chan(a.chan, a.action)));
      }
    }
  }

  lemma CallStepKeeps(cs: Scheme, s: Server, c: nat, step: CallAction)
    requires Invariant(cs, s)
    ensures Invariant(cs, CallStep(s, c, step))
  {
    if c < |s.calls| {
      var r := CallStep(s, c, step).calls[c];
      SetCallKeeps(cs, s, c, r);
      assert s.calls[c := s.calls[c]] == s.calls;
    }
  }

  // ------------------------------------------------------------------ futures

  /** A home changes a future only by polling it. */
  lemma TaskStable(cs: Scheme, s: Server, a: Action, i: nat)
    requires i < |s.tasks| && a != Poll(i)
    ensures i < |Step(cs, s, a).tasks| && Step(cs, s, a).tasks[i] == s.tasks[i]
  {
    if a.Poll? && a.task < |s.tasks| { PollTasks(cs, s, a.task); }
  }

  lemma PollTasks(cs: Scheme, s: Server, i: nat)
    requires i < |s.tasks|
    ensures var t := PollStep(cs, s, i).tasks;
            t == s.tasks || t == s.tasks[i := Finished(true)] || t == s.tasks[i := Finished(false)]
    ensures s.tasks[i].ResponseTask? ==>
              PollStep(cs, s, i).tasks[i] ==
              Finished(ProofHolds(cs, s.tasks[i].relation, s.tasks[i].ctx, s.tasks[i].stored)
                  && s.tasks[i].to in s.hosted)
    ensures s.tasks[i].Finished? ==> PollStep(cs, s, i).tasks[i] == s.tasks[i]
  {
    match s.tasks[i]
    case CallTask(c, stored) =>
    case _ =>
  }

  lemma FutureStep(cs: Scheme, s: Server, a: Action, t: nat)
    requires t < |s.tasks|
    ensures t < |Step(cs, s, a).tasks|
    ensures var now := Step(cs, s, a).tasks[t]; now == s.tasks[t] || (now.Finished? && a == Poll(t))
  {
    if a == Poll(t) { PollTasks(cs, s, t); } else { TaskStable(cs, s, a, t); }
  }

  // ------------------------------------------------------------------ every reachable state

  lemma StepKeeps(cs: Scheme, s: Server, a: Action)
    requires cs.CollisionFree() && Invariant(cs, s) && OwnProof(s.home, a)
    ensures Invariant(cs, Step(cs, s, a))
  {
    match a
    case Ask(ctx, request) => AskKeeps(cs, s, ctx, request);
    case OnSession(j, what) => SessionKeeps(cs, s, j, what);
    case Poll(i) => if i < |s.tasks| { PollKeeps(cs, s, i); }
    case EventChannel(j, c, ca) => StreamKeeps(cs, s, a);
    case AppChannel(j, app, c, ca) => StreamKeeps(cs, s, a);
    case OnCall(c, step) => CallStepKeeps(cs, s, c, step);
  }

  lemma PollKeepsHome(cs: Scheme, s: Server, i: nat)
    requires i < |s.tasks|
    ensures PollStep(cs, s, i).home == s.home
  {
    if s.tasks[i].CallTask? && s.tasks[i].call < |s.calls| {
      assert PushCall(Finish(s, i, true), s.tasks[i].call).home == s.home;
    }
  }

  lemma HomeFixed(cs: Scheme, s: Server, a: Action)
    ensures Step(cs, s, a).home == s.home
  {
    if a.Poll? && a.task < |s.tasks| { PollKeepsHome(cs, s, a.task); }
  }

  lemma {:induction false} RunKeeps(cs: Scheme, home: Signer, run: seq<Action>)
    requires cs.CollisionFree() && OwnProofs(home, run)
    ensures Run(cs, home, run).home == home && Invariant(cs, Run(cs, home, run))
  {
    if run != [] {
      var before := run[..|run| - 1];
      RunKeeps(cs, home, before);
      StepKeeps(cs, Run(cs, home, before), run[|run| - 1]);
      HomeFixed(cs, Run(cs, home, before), run[|run| - 1]);
    }
  }
}
