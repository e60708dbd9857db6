/** Queue validity and call routing over every run of the home server. */
module HomeCalls {
  import opened Prelude
  import opened Relation
  import opened HomeServer
  import opened HomeInvariants
  import Sinks = EventSink

  // ------------------------------------------------------------------ queue validity

  /** Whatever a session holds, buffered, on its way, in a channel or received: a pairing request
      is its signer's accepted half-proof addressed to the owner, a pairing response validates
      between its sender and the owner. */
  lemma QueuedEventsValid(cs: Scheme, home: Signer, run: seq<Action>, j: nat, m: Sinks.Message<Event>)
    requires cs.CollisionFree() && OwnProofs(home, run) && j < |Run(cs, home, run).objects|
    requires Sinks.Held(Run(cs, home, run).objects[j].events, m)
    ensures m.Warning? || EventSound(cs, Run(cs, home, run).objects[j].ctx, m.value)
  {
    RunKeeps(cs, home, run);
    var o := Run(cs, home, run).objects[j];
    assert SessionSound(cs, o);
    Sinks.HeldWasPushed(o.events, m);
  }

  /** The same for calls: a call held for an application of a session was placed for that
      application and that owner, by a caller the relation in it relates to the owner. */
  lemma QueuedCallsValid(cs: Scheme, home: Signer, run: seq<Action>, j: nat, app: AppId, m: Sinks.Message<nat>)
    requires cs.CollisionFree() && OwnProofs(home, run)
    requires j < |Run(cs, home, run).objects| && app in Run(cs, home, run).objects[j].apps
    requires Sinks.Held(Run(cs, home, run).objects[j].apps[app], m)
    ensures var s := Run(cs, home, run);
            m.Warning? || (CallSound(cs, s.objects[j].ctx, s.calls, m.value, Slot(j, app, m.pos))
                           && WasPlaced(cs, home, run, m.value, app, s.objects[j].ctx.peerId))
  {
    RunKeeps(cs, home, run);
    var o := Run(cs, home, run).objects[j];
    assert SessionSound(cs, o);
    Sinks.HeldWasPushed(o.apps[app], m);
    SinkPushesSound(cs, Run(cs, home, run), j, app);
    if m.Item? { CallWasPlaced(cs, home, run, m.value); }
  }

  /** A step of the run placed call `c` for that application of `callee`. */
  ghost predicate WasPlaced(cs: Scheme, home: Signer, run: seq<Action>, c: nat, app: AppId, callee: ProfileId) {
    exists n: nat, ctx, relation ::
      && PlacedAt(cs, home, run, n, c, ctx, app, relation)
      && callee == if relation.aId == ctx.peerId then relation.bId else relation.aId
  }

  lemma CallWasPlaced(cs: Scheme, home: Signer, run: seq<Action>, c: nat)
    requires c < |Run(cs, home, run).calls|
    ensures var r := Run(cs, home, run).calls[c]; WasPlaced(cs, home, run, c, r.app, r.callee)
  {
    var n := EveryCallWasPlaced(cs, home, run, c);
  }

  // ------------------------------------------------------------------ delivery

  /** Call `c` is item `x` of what the client received on channel `k` of `app` in session `j`. */
  predicate ReceivedAt(s: Server, c: nat, j: nat, app: AppId, k: nat, x: nat) {
    && j < |s.objects| && app in s.objects[j].apps && k < |s.objects[j].apps[app].chans|
    && var received := s.objects[j].apps[app].chans[k].received;
    && x < |received| && received[x].Item? && received[x].value == c
  }

  /** A call is delivered to its callee only. */
  lemma DeliveredToCallee(cs: Scheme, home: Signer, run: seq<Action>, c: nat, j: nat, app: AppId, k: nat, x: nat)
    requires cs.CollisionFree() && OwnProofs(home, run)
    requires ReceivedAt(Run(cs, home, run), c, j, app, k, x)
    ensures var s := Run(cs, home, run);
            && c < |s.calls| && s.calls[c].app == app && s.calls[c].callee == s.objects[j].ctx.peerId
            && RelationBetween(cs, s.calls[c].relation, s.calls[c].caller, s.objects[j].ctx)
            && WasPlaced(cs, home, run, c, app, s.objects[j].ctx.peerId)
  {
    RunKeeps(cs, home, run);
    var s := Run(cs, home, run);
    SlotOfReceived(cs, s, j, app, k, s.objects[j].apps[app].chans[k].received[x]);
    CallWasPlaced(cs, home, run, c);
  }

  lemma SlotOfReceived(cs: Scheme, s: Server, j: nat, app: AppId, k: nat, m: Sinks.Message<nat>)
    requires Invariant(cs, s) && j < |s.objects| && app in s.objects[j].apps
    requires k < |s.objects[j].apps[app].chans| && m in s.objects[j].apps[app].chans[k].received && m.Item?
    ensures CallSound(cs, s.objects[j].ctx, s.calls, m.value, Slot(j, app, m.pos))
  {
    assert SessionSound(cs, s.objects[j]);
    assert m in Sinks.Ledger(s.objects[j].apps[app].chans[k]);
    Sinks.HeldWasPushed(s.objects[j].apps[app], m);
    SinkPushesSound(cs, s, j, app);
  }

  // ------------------------------------------------------------------ answers and outcomes

  predicate GotSink(outcome: Option<Outcome>) {
    outcome.Some? && outcome.value.Got? && outcome.value.sink.Some?
  }

  /** An answered call was delivered, and a sink in an outcome is the one of the answer. */
  ghost predicate Honest(s: Server, c: nat) {
    c < |s.calls| ==>
      && (s.calls[c].answer.Some? ==> Delivered(s, c))
      && (GotSink(s.calls[c].outcome) ==> s.calls[c].answer == Some(s.calls[c].outcome.value.sink))
  }

  /** What a step may do to a call: fill in, never take back. */
  predicate Extends(r: CallRecord, r': CallRecord) {
    && r'.caller == r.caller && r'.callee == r.callee && r'.app == r.app && r'.relation == r.relation
    && (r.slot.Some? ==> r'.slot == r.slot)
    && (r.answer.Some? ==> r'.answer == r.answer)
    && (r.outcome.Some? ==> r'.outcome == r.outcome)
  }

  /** Streams only grow, sessions and applications only come. */
  ghost predicate StreamsGrow(objects: seq<Session>, objects': seq<Session>) {
    && |objects| <= |objects'|
    && forall j, app :: 0 <= j < |objects| && app in objects[j].apps ==>
         app in objects'[j].apps && ReceivedGrows(objects[j].apps[app].chans, objects'[j].apps[app].chans)
  }

  ghost predicate ReceivedGrows(chans: seq<Sinks.Channel<nat>>, chans': seq<Sinks.Channel<nat>>) {
    && |chans| <= |chans'|
    && forall k :: 0 <= k < |chans| ==> chans[k].received <= chans'[k].received
  }

  lemma DeliveredStays(s: Server, s': Server, c: nat)
    requires Delivered(s, c) && StreamsGrow(s.objects, s'.objects)
    requires |s.calls| <= |s'.calls| && s'.calls[c].slot == s.calls[c].slot
    ensures Delivered(s', c)
  {
    var slot := s.calls[c].slot.value;
    var chans := s.objects[slot.session].apps[slot.app].chans;
    var k :| 0 <= k < |chans| && Sinks.Item(slot.pos, c) in chans[k].received;
    var chans' := s'.objects[slot.session].apps[slot.app].chans;
    assert chans[k].received <= chans'[k].received;
    var x :| 0 <= x < |chans[k].received| && chans[k].received[x] == Sinks.Item(slot.pos, c);
    assert chans'[k].received[x] == Sinks.Item(slot.pos, c);
  }

  lemma SinkStepGrows(sink: Sinks.Sink<nat>, a: Sinks.Action<nat>)
    ensures ReceivedGrows(sink.chans, Sinks.Step(sink, a).chans)
  {
  }

  lemma AppSinkGrows(s: Server, j: nat, app: AppId, sink: Sinks.Sink<nat>)
    requires j < |s.objects| && ReceivedGrows(AppSink(s.objects[j], app).chans, sink.chans)
    ensures StreamsGrow(s.objects, SetAppSink(s, j, app, sink).objects)
  {
  }

  /** An answer comes from who holds the call, a sink in an outcome from the answer. */
  predicate Sourced(s: Server, c: nat, r': CallRecord)
    requires c < |s.calls|
  {
    var r := s.calls[c];
    && (r'.answer == r.answer || Delivered(s, c))
    && (r'.outcome in {r.outcome, Some(Failed), Some(Got(None))} ||
        (r.answer.Some? && r'.outcome == Some(Got(r.answer.value))))
  }

  /** What one step does to the calls and the streams. */
  ghost predicate Grows(s: Server, s': Server) {
    && StreamsGrow(s.objects, s'.objects)
    && |s.calls| <= |s'.calls|
    && (forall c :: 0 <= c < |s.calls| ==> Extends(s.calls[c], s'.calls[c]) && Sourced(s, c, s'.calls[c]))
    && (forall c :: |s.calls| <= c < |s'.calls| ==> s'.calls[c].answer.None? && s'.calls[c].outcome.None?)
  }

  lemma PushCallGrows(s: Server, c: nat)
    requires c < |s.calls| && s.calls[c].slot.None?
    ensures Grows(s, PushCall(s, c))
  {
    var live := LiveSession(s, s.calls[c].callee);
    if live.Some? {
      var sink := AppSink(s.objects[live.value], s.calls[c].app);
      SinkStepGrows(sink, Sinks.Calls(Sinks.Push(c)));
      AppSinkGrows(s, live.value, s.calls[c].app, Sinks.PushTo(sink, c));
    }
  }

  /** The future of a call that has not run yet has not been resolved either. */
  ghost predicate CallTasksFresh(s: Server) {
    forall i :: 0 <= i < |s.tasks| && s.tasks[i].CallTask? ==>
      s.tasks[i].call < |s.calls| && s.calls[s.tasks[i].call].task == i &&
      s.calls[s.tasks[i].call].slot.None? && !s.calls[s.tasks[i].call].awaiting &&
      s.calls[s.tasks[i].call].outcome.None?
  }

  /** A step that touches neither the calls nor any call sink. */
  lemma SinksUntouched(s: Server, s': Server)
    requires s'.calls == s.calls && |s.objects| <= |s'.objects|
    requires forall j :: 0 <= j < |s.objects| ==> s'.objects[j].apps == s.objects[j].apps
    ensures Grows(s, s')
  {
  }

  lemma PollCallGrows(cs: Scheme, s: Server, i: nat)
    requires i < |s.tasks| && s.tasks[i].CallTask? && s.tasks[i].call < |s.calls|
    requires s.calls[s.tasks[i].call].slot.None? && s.calls[s.tasks[i].call].outcome.None?
    ensures Grows(s, PollStep(cs, s, i))
  {
    var f, c := Finish(s, i, true), s.tasks[i].call;
    PushCallGrows(f, c);
    assert forall k :: Delivered(f, k) == Delivered(s, k);
    FailCallGrows(s, Finish(s, i, false), c);
  }

  lemma FailCallGrows(s: Server, f: Server, c: nat)
    requires f.objects == s.objects && f.calls == s.calls && c < |s.calls| && s.calls[c].outcome.None?
    ensures Grows(s, FailCall(f, c))
  {
  }

  lemma PollGrows(cs: Scheme, s: Server, i: nat)
    requires CallTasksFresh(s) && i < |s.tasks|
    ensures Grows(s, PollStep(cs, s, i))
  {
    if s.tasks[i].CallTask? { PollCallGrows(cs, s, i); }
    else { PollOtherGrows(cs, s, i); }
  }

  lemma PollOtherGrows(cs: Scheme, s: Server, i: nat)
    requires i < |s.tasks| && !s.tasks[i].CallTask?
    ensures Grows(s, PollStep(cs, s, i))
  {
    SinksUntouched(s, PollStep(cs, s, i));
  }

  lemma SessionGrows(s: Server, j: nat, what: SessionRequest)
    ensures Grows(s, SessionStep(s, j, what))
  {
    if j < |s.objects| && s.objects[j].live && what.Checkin? {
      var sink := AppSink(s.objects[j], what.app);
      SinkStepGrows(sink, Sinks.Calls(Sinks.Subscribe));
      AppSinkGrows(s, j, what.app, Sinks.SubscribeTo(sink));
    } else {
      SinksUntouched(s, SessionStep(s, j, what));
    }
  }

  lemma AskGrows(cs: Scheme, s: Server, ctx: Context, request: Request)
    ensures Grows(s, AskStep(cs, s, ctx, request))
  {
  }

  lemma AppChannelGrows(cs: Scheme, s: Server, j: nat, app: AppId, k: nat, ca: Sinks.ChannelAction)
    ensures Grows(s, Step(cs, s, AppChannel(j, app, k, ca)))
  {
    if j < |s.objects| && app in s.objects[j].apps {
      SinkStepGrows(s.objects[j].apps[app], Sinks.Chan(k, ca));
      AppSinkGrows(s, j, app, Sinks.Step(s.objects[j].apps[app], Sinks.Chan(k, ca)));
    }
  }

  lemma CallStepGrows(s: Server, c: nat, step: CallAction)
    ensures Grows(s, CallStep(s, c, step))
  {
    if c < |s.calls| {
      var r := CallStep(s, c, step).calls[c];
      CallStepExtends(s, c, step);
      RecordGrows(s, c, r);
      assert s.calls[c := s.calls[c]] == s.calls;
    }
  }

  lemma CallStepExtends(s: Server, c: nat, step: CallAction)
    requires c < |s.calls|
    ensures CallStep(s, c, step) == SetCall(s, c, CallStep(s, c, step).calls[c])
    ensures Extends(s.calls[c], CallStep(s, c, step).calls[c]) && Sourced(s, c, CallStep(s, c, step).calls[c])
  {
    assert SetCall(s, c, s.calls[c]) == s;
  }

  lemma RecordGrows(s: Server, c: nat, r: CallRecord)
    requires c < |s.calls| && Extends(s.calls[c], r) && Sourced(s, c, r)
    ensures Grows(s, SetCall(s, c, r))
  {
  }

  lemma StepGrows(cs: Scheme, s: Server, a: Action)
    requires CallTasksFresh(s)
    ensures Grows(s, Step(cs, s, a))
  {
    match a
    case Ask(ctx, request) => AskGrows(cs, s, ctx, request);
    case OnSession(j, what) => SessionGrows(s, j, what);
    case Poll(i) => if i < |s.tasks| { PollGrows(cs, s, i); } else { SinksUntouched(s, s); }
    case EventChannel(j, k, ca) => SinksUntouched(s, Step(cs, s, a));
    case AppChannel(j, app, k, ca) => AppChannelGrows(cs, s, j, app, k, ca);
    case OnCall(c, step) => CallStepGrows(s, c, step);
  }

  /** A finished future frees its call; the calls of all other futures stay as they are. */
  lemma FreshExcept(s: Server, s': Server, i: nat)
    requires CallTasksFresh(s) && i < |s.tasks| && |s'.tasks| == |s.tasks| && |s.calls| == |s'.calls|
    requires forall k :: 0 <= k < |s.tasks| && k != i ==> s'.tasks[k] == s.tasks[k]
    requires s'.tasks[i].CallTask? ==> s' == s
    requires forall c :: 0 <= c < |s.calls| && s.calls[c].task != i ==> s'.calls[c] == s.calls[c]
    ensures CallTasksFresh(s')
  {
  }

  lemma PollCallTouches(cs: Scheme, s: Server, i: nat)
    requires i < |s.tasks| && s.tasks[i].CallTask? && s.tasks[i].call < |s.calls|
    ensures var s', c := PollStep(cs, s, i), s.tasks[i].call;
            && |s'.tasks| == |s.tasks| && |s'.calls| == |s.calls| && s'.tasks[i].Finished?
            && (forall k :: 0 <= k < |s.tasks| && k != i ==> s'.tasks[k] == s.tasks[k])
            && (forall d :: 0 <= d < |s.calls| && d != c ==> s'.calls[d] == s.calls[d])
  {
  }

  lemma PollKeepsFresh(cs: Scheme, s: Server, i: nat)
    requires CallTasksFresh(s) && i < |s.tasks|
    ensures CallTasksFresh(PollStep(cs, s, i))
  {
    if s.tasks[i].CallTask? { PollCallTouches(cs, s, i); }
    FreshExcept(s, PollStep(cs, s, i), i);
  }

  lemma AskKeepsFresh(cs: Scheme, s: Server, ctx: Context, request: Request)
    requires CallTasksFresh(s)
    ensures CallTasksFresh(AskStep(cs, s, ctx, request))
  {
    assert request.PlaceCall? <== FutureOf(cs, s, ctx, request).CallTask?;
  }

  lemma SessionKeepsFresh(s: Server, j: nat, what: SessionRequest)
    requires CallTasksFresh(s)
    ensures CallTasksFresh(SessionStep(s, j, what))
  {
  }

  lemma CallStepKeepsFresh(s: Server, c: nat, step: CallAction)
    requires CallTasksFresh(s)
    ensures CallTasksFresh(CallStep(s, c, step))
  {
    if c < |s.calls| {
      var r := CallStep(s, c, step).calls[c];
      assert r == s.calls[c].(answer := r.answer, outcome := r.outcome);
    }
  }

  lemma StepKeepsFresh(cs: Scheme, s: Server, a: Action)
    requires CallTasksFresh(s)
    ensures CallTasksFresh(Step(cs, s, a))
  {
    match a
    case Ask(ctx, request) => AskKeepsFresh(cs, s, ctx, request);
    case OnSession(j, what) => SessionKeepsFresh(s, j, what);
    case Poll(i) => if i < |s.tasks| { PollKeepsFresh(cs, s, i); }
    case OnCall(c, step) => CallStepKeepsFresh(s, c, step);
    case _ =>
  }

  lemma StepKeepsHonest(cs: Scheme, s: Server, a: Action)
    requires CallTasksFresh(s) && forall c: nat :: Honest(s, c)
    ensures forall c: nat :: Honest(Step(cs, s, a), c)
  {
    StepGrows(cs, s, a);
    var s' := Step(cs, s, a);
    forall c: nat ensures Honest(s', c) {
      assert Honest(s, c);
      if c < |s.calls| {
        assert Extends(s.calls[c], s'.calls[c]);
        if s'.calls[c].answer.Some? { DeliveredStays(s, s', c); }
      }
    }
  }

  /** Call outcomes: in every run an answered call was delivered, and a caller who got a sink got
      the one its own call was answered with. */
  lemma {:induction false} OutcomesAreAnswers(cs: Scheme, home: Signer, run: seq<Action>)
    ensures CallTasksFresh(Run(cs, home, run)) && forall c: nat :: Honest(Run(cs, home, run), c)
  {
    if run != [] {
      var before := run[..|run| - 1];
      OutcomesAreAnswers(cs, home, before);
      StepKeepsFresh(cs, Run(cs, home, before), run[|run| - 1]);
      StepKeepsHonest(cs, Run(cs, home, before), run[|run| - 1]);
    }
  }

  // ------------------------------------------------------------------ where calls come from

  /** Step `n` of the run places call `c`: the persona asks for that application of the other party of
      that relation. */
  ghost predicate PlacedAt(cs: Scheme, home: Signer, run: seq<Action>, n: nat, c: nat, ctx: Context, app: AppId,
                           relation: Proof)
  {
    && n < |run| && run[n] == Ask(ctx, PlaceCall(app, relation)) && ValidContext(cs, ctx)
    && ctx.peerId in {relation.aId, relation.bId} && |After(cs, home, run, n).calls| == c
  }

  lemma PlacedLater(cs: Scheme, home: Signer, run: seq<Action>, a: Action, n: nat, c: nat, ctx: Context, app: AppId,
                    relation: Proof)
    requires PlacedAt(cs, home, run, n, c, ctx, app, relation)
    ensures PlacedAt(cs, home, run + [a], n, c, ctx, app, relation)
  {
    assert (run + [a])[..n] == run[..n];
  }

  /** What a step makes of the calls: only a request for a call adds one, and its record is that of
      the request. */
  lemma CallAdded(cs: Scheme, s: Server, a: Action)
    requires |Step(cs, s, a).calls| > |s.calls|
    ensures a.Ask? && a.request.PlaceCall? && ValidContext(cs, a.ctx) && |Step(cs, s, a).calls| == |s.calls| + 1
    ensures var r, p := Step(cs, s, a).calls[|s.calls|], a.request.relation;
            && a.ctx.peerId in {p.aId, p.bId} && r.caller == a.ctx && r.app == a.request.app && r.relation == p
            && r.callee == if p.aId == a.ctx.peerId then p.bId else p.aId
  {
    if a.Poll? && a.task < |s.tasks| { PollKeepsCallCount(cs, s, a.task); }
  }

  lemma PollKeepsCallCount(cs: Scheme, s: Server, i: nat)
    requires i < |s.tasks|
    ensures |PollStep(cs, s, i).calls| == |s.calls|
  {
    if s.tasks[i].CallTask? && s.tasks[i].call < |s.calls| { PollCallTouches(cs, s, i); }
  }

  /** In every run each call there is comes from a step that placed it, for the application and over
      the relation on its record, to the other party of that relation. */
  lemma {:induction false} EveryCallWasPlaced(cs: Scheme, home: Signer, run: seq<Action>, c: nat) returns (n: nat)
    requires c < |Run(cs, home, run).calls|
    ensures var r := Run(cs, home, run).calls[c];
            && PlacedAt(cs, home, run, n, c, r.caller, r.app, r.relation)
            && r.callee == if r.relation.aId == r.caller.peerId then r.relation.bId else r.relation.aId
  {
    var before, a := run[..|run| - 1], run[|run| - 1];
    assert run == before + [a];
    if c < |Run(cs, home, before).calls| {
      n := EveryCallWasPlaced(cs, home, before, c);
      RecordStays(cs, home, before, a, c);
      var r := Run(cs, home, before).calls[c];
      PlacedLater(cs, home, before, a, n, c, r.caller, r.app, r.relation);
    } else {
      n := |before|;
      PlacedNow(cs, home, before, a, c);
    }
  }

  lemma RecordStays(cs: Scheme, home: Signer, run: seq<Action>, a: Action, c: nat)
    requires c < |Run(cs, home, run).calls|
    ensures c < |Run(cs, home, run + [a]).calls|
    ensures Extends(Run(cs, home, run).calls[c], Run(cs, home, run + [a]).calls[c])
  {
    OutcomesAreAnswers(cs, home, run);
    StepGrows(cs, Run(cs, home, run), a);
    assert (run + [a])[..|run|] == run;
  }

  lemma PlacedNow(cs: Scheme, home: Signer, run: seq<Action>, a: Action, c: nat)
    requires |Run(cs, home, run).calls| <= c < |Run(cs, home, run + [a]).calls|
    ensures var r := Run(cs, home, run + [a]).calls[c];
            && PlacedAt(cs, home, run + [a], |run|, c, r.caller, r.app, r.relation)
            && r.callee == if r.relation.aId == r.caller.peerId then r.relation.bId else r.relation.aId
  {
    assert (run + [a])[..|run|] == run;
    CallAdded(cs, Run(cs, home, run), a);
  }

  /** A call is answered at most once and its caller gets at most one outcome: whatever happens
      later, neither changes, nor does the slot it was pushed to. */
  lemma {:induction false} AnswersAndOutcomesAreFinal(cs: Scheme, home: Signer, run: seq<Action>,
      later: seq<Action>, c: nat)
    requires c < |Run(cs, home, run).calls|
    ensures var s, s' := Run(cs, home, run), Run(cs, home, run + later);
            c < |s'.calls| && Extends(s.calls[c], s'.calls[c])
    decreases |later|
  {
    if later == [] {
      assert run + later == run;
    } else {
      var before := later[..|later| - 1];
      AnswersAndOutcomesAreFinal(cs, home, run, before, c);
      OutcomesAreAnswers(cs, home, run + before);
      assert (run + later)[..|run + later| - 1] == run + before;
      StepGrows(cs, Run(cs, home, run + before), later[|later| - 1]);
    }
  }

  /** What a step has placed stays on record as it was asked for. */
  lemma PlacingIsRecorded(cs: Scheme, home: Signer, run: seq<Action>, n: nat, c: nat, ctx: Context, app: AppId,
                          relation: Proof)
    requires PlacedAt(cs, home, run, n, c, ctx, app, relation)
    ensures c < |Run(cs, home, run).calls|
    ensures var r := Run(cs, home, run).calls[c];
            && r.caller == ctx && r.app == app && r.relation == relation
            && r.callee == if relation.aId == ctx.peerId then relation.bId else relation.aId
  {
    AfterStep(cs, home, run, n);
    CallPlaced(cs, After(cs, home, run, n), ctx, app, relation);
    assert run[..n + 1] + run[n + 1..] == run;
    AnswersAndOutcomesAreFinal(cs, home, run[..n + 1], run[n + 1..], c);
  }

  lemma CallPlaced(cs: Scheme, s: Server, ctx: Context, app: AppId, relation: Proof)
    requires ValidContext(cs, ctx) && ctx.peerId in {relation.aId, relation.bId}
    ensures var calls := Step(cs, s, Ask(ctx, PlaceCall(app, relation))).calls;
            && |calls| == |s.calls| + 1
            && var r := calls[|s.calls|];
            && r.caller == ctx && r.app == app && r.relation == relation
            && r.callee == if relation.aId == ctx.peerId then relation.bId else relation.aId
  {
  }
}
