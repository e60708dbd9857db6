/** What each call on the home server comes to, whatever happens between the call and the poll of its
    future: exactly when it succeeds, said on the fields of the request, and exactly what changes. */
module HomeEffects {
  import opened Prelude
  import opened Relation
  import opened HomeServer
  import opened HomeInvariants
  import opened HomeStores
  import opened HomeCalls
  import opened HomeSinks
  import opened HomeRegistration
  import Sinks = EventSink

  /** `id` is one of the two ids of the proof and `other` is the other one. */
  predicate Names(p: Proof, id: ProfileId, other: ProfileId) {
    (p.aId == id && p.bId == other) || (p.aId != id && p.bId == id && p.aId == other)
  }

  /** The signature check on the half-proof's own statement is not an error. */
  predicate HalfAccepted(cs: Scheme, half: HalfProof, key: PublicKey) {
    !cs.check(key, Serialized(SignablePart(half.relationType, half.signerId, half.peerId)), half.signature).CheckFailed?
  }

  /** Nothing but the future itself has changed. */
  predicate OnlyFinished(s: Server, s': Server, t: nat, ok: bool) {
    t < |s.tasks| && s' == s.(tasks := s.tasks[t := Finished(ok)])
  }

  // ------------------------------------------------------------------ login

  /** A login succeeds if and only if its proof is of the home type, names this home, and names with
      it a profile that was hosted at the call. Then its poll opens a session of the connection and
      enters it under the profile named, unless there is an entry; otherwise nothing changes. */
  lemma LoginExactly(cs: Scheme, s: Server, ctx: Context, proof: Proof, between: seq<Action>)
    requires ValidContext(cs, ctx) && NotPolled(between, |s.tasks|)
    ensures var ask, t := Ask(ctx, Login(proof)), |s.tasks|;
            var s2, s3 := RunFrom(cs, Step(cs, s, ask), between), CallThenPoll(cs, s, ask, between);
            var other := if proof.aId == s.home.id then proof.bId else proof.aId;
            var ok := proof.relationType == HOSTED_ON_HOME && s.home.id in {proof.aId, proof.bId} && other in s.hosted;
            && t < |s2.tasks| && t < |s3.tasks| && s3.tasks[t] == Finished(ok)
            && s3.hosted == s2.hosted && s3.public == s2.public && s3.calls == s2.calls
            && (ok ==> s3.objects == s2.objects + [Session(ctx, true, Sinks.EmptySink(), map[])])
            && (ok ==> s3.sessions == if other in s2.sessions then s2.sessions else s2.sessions[other := |s2.objects|])
            && (!ok ==> OnlyFinished(s2, s3, t, false))
  {
    var ask := Ask(ctx, Login(proof));
    var s1 := AddTask(s, LoginFuture(s, ctx, proof));
    assert Step(cs, s, ask) == s1;
    FutureWaits(cs, s1, between, |s.tasks|);
  }

  // ------------------------------------------------------------------ register and update

  /** The checks of `register`, on the fields of the request. */
  predicate MayRegister(cs: Scheme, home: Signer, ctx: Context, own: OwnProfile, half: HalfProof) {
    && own.profile.id == ctx.peerId && own.profile.publicKey == ctx.peerKey && own.profile.facet.Persona?
    && half.signerId == ctx.peerId && half.peerId == home.id && half.relationType == HOSTED_ON_HOME
    && HalfAccepted(cs, half, ctx.peerKey)
  }

  lemma RegisterChecksExactly(cs: Scheme, home: Signer, ctx: Context, own: OwnProfile, half: HalfProof)
    ensures RegisterCheck(cs, home, ctx, own, half).Some? <==> MayRegister(cs, home, ctx, own, half)
  {
  }

  /** A registration succeeds if and only if it passes the checks and its id was free at the call;
      otherwise its poll changes nothing. */
  lemma RegisterExactly(cs: Scheme, s: Server, ctx: Context, own: OwnProfile, half: HalfProof, between: seq<Action>)
    requires ValidContext(cs, ctx) && NotPolled(between, |s.tasks|)
    ensures var ask, t := Ask(ctx, Register(own, half)), |s.tasks|;
            var s2, s3 := RunFrom(cs, Step(cs, s, ask), between), CallThenPoll(cs, s, ask, between);
            var ok := MayRegister(cs, s.home, ctx, own, half) && own.profile.id !in s.hosted;
            && t < |s2.tasks| && t < |s3.tasks| && s3.tasks[t] == Finished(ok)
            && (!ok ==> OnlyFinished(s2, s3, t, false))
  {
    var ask := Ask(ctx, Register(own, half));
    RegisterChecksExactly(cs, s.home, ctx, own, half);
    var s1 := AddTask(s, RegisterFuture(cs, s, ctx, own, half));
    assert Step(cs, s, ask) == s1;
    FutureWaits(cs, s1, between, |s.tasks|);
  }

  /** An update succeeds if and only if it is of the session's own id and key and that id was hosted
      at the call; then its poll writes the very profile given to both stores, otherwise nothing. */
  lemma UpdateExactly(cs: Scheme, s: Server, j: nat, own: OwnProfile, between: seq<Action>)
    requires j < |s.objects| && s.objects[j].live && NotPolled(between, |s.tasks|)
    ensures var ask, t, ctx := OnSession(j, Update(own)), |s.tasks|, s.objects[j].ctx;
            var s2, s3 := RunFrom(cs, Step(cs, s, ask), between), CallThenPoll(cs, s, ask, between);
            var ok := own.profile.id == ctx.peerId && own.profile.publicKey == ctx.peerKey && ctx.peerId in s.hosted;
            && t < |s2.tasks| && t < |s3.tasks| && s3.tasks[t] == Finished(ok)
            && (ok ==> s3.hosted == s2.hosted[ctx.peerId := own] && s3.public == s2.public[ctx.peerId := own.profile])
            && (ok ==> s3.objects == s2.objects && s3.sessions == s2.sessions && s3.calls == s2.calls)
            && (!ok ==> OnlyFinished(s2, s3, t, false))
  {
    var ask := OnSession(j, Update(own));
    var s1 := AddTask(s, UpdateFuture(s, s.objects[j].ctx, own));
    assert Step(cs, s, ask) == s1;
    FutureWaits(cs, s1, between, |s.tasks|);
  }

  // ------------------------------------------------------------------ pairing

  lemma StillReached(cs: Scheme, s: Server, a: Action, between: seq<Action>)
    requires AllReached(s.objects, false)
    ensures AllReached(RunFrom(cs, Step(cs, s, a), between).objects, false)
  {
    StepReaches(cs, s, a, false);
    RunFromReaches(cs, Step(cs, s, a), between);
  }

  lemma {:induction false} RunFromReaches(cs: Scheme, s: Server, run: seq<Action>)
    requires AllReached(s.objects, false)
    ensures AllReached(RunFrom(cs, s, run).objects, false)
  {
    if run != [] {
      RunFromReaches(cs, s, run[..|run| - 1]);
      StepReaches(cs, RunFrom(cs, s, run[..|run| - 1]), run[|run| - 1], false);
    }
  }

  /** A pairing request succeeds if and only if the connecting persona signed the half-proof and its
      peer was hosted at the call; then its poll delivers the half-proof to the peer's live session,
      otherwise it changes nothing. */
  lemma PairRequestExactly(cs: Scheme, s: Server, ctx: Context, half: HalfProof, between: seq<Action>)
    requires ValidContext(cs, ctx) && NotPolled(between, |s.tasks|) && AllReached(s.objects, false)
    ensures var ask, t := Ask(ctx, PairRequest(half)), |s.tasks|;
            var s2, s3 := RunFrom(cs, Step(cs, s, ask), between), CallThenPoll(cs, s, ask, between);
            var ok := half.signerId == ctx.peerId && HalfAccepted(cs, half, ctx.peerKey) && half.peerId in s.hosted;
            && t < |s2.tasks| && t < |s3.tasks| && s3.tasks[t] == Finished(ok)
            && (ok ==> EventDelivered(Finish(s2, t, true), s3, half.peerId, PairingRequest(half)))
            && (!ok ==> OnlyFinished(s2, s3, t, false))
  {
    var ask, t := Ask(ctx, PairRequest(half)), |s.tasks|;
    var s1, s2 := Step(cs, s, ask), RunFrom(cs, Step(cs, s, ask), between);
    var f := PairRequestFuture(cs, s, ctx, half);
    assert s1 == AddTask(s, f);
    FutureWaits(cs, s1, between, t);
    StillReached(cs, s, ask, between);
    if f.RequestTask? { RequestPolled(cs, s2, t, half, f.hosted); } else { RefusedPolled(cs, s2, t); }
  }

  lemma RequestPolled(cs: Scheme, s: Server, t: nat, half: HalfProof, hosted: bool)
    requires AllReached(s.objects, false) && t < |s.tasks| && s.tasks[t] == RequestTask(half, hosted)
    ensures var s' := Step(cs, s, Poll(t));
            && t < |s'.tasks| && s'.tasks[t] == Finished(hosted)
            && (hosted ==> EventDelivered(Finish(s, t, true), s', half.peerId, PairingRequest(half)))
            && (!hosted ==> OnlyFinished(s, s', t, false))
  {
    PushDeliversEvent(Finish(s, t, true), half.peerId, PairingRequest(half));
  }

  lemma RefusedPolled(cs: Scheme, s: Server, t: nat)
    requires t < |s.tasks| && s.tasks[t] == Finished(false)
    ensures Step(cs, s, Poll(t)) == s && OnlyFinished(s, s, t, false)
  {
    assert s.tasks[t := Finished(false)] == s.tasks;
  }

  /** What a relation must meet so that a persona's home takes it: it names the connecting persona
      and `to`, who was hosted at the call and is hosted at the poll, and validates between the two
      under the key that was stored at the call. */
  predicate RelationTaken(cs: Scheme, s: Server, s2: Server, ctx: Context, relation: Proof, to: ProfileId) {
    && Names(relation, ctx.peerId, to) && to in s.hosted && to in s2.hosted
    && ValidProof(cs, relation, ctx.peerId, ctx.peerKey, s.hosted[to].profile.id, s.hosted[to].profile.publicKey)
  }

  /** A pairing response succeeds if and only if its relation is taken; then its poll delivers the
      relation to the live session of the other party, otherwise it changes nothing. */
  lemma PairResponseExactly(cs: Scheme, s: Server, ctx: Context, relation: Proof, between: seq<Action>)
    requires ValidContext(cs, ctx) && NotPolled(between, |s.tasks|) && AllReached(s.objects, false)
    ensures var ask, t := Ask(ctx, PairResponse(relation)), |s.tasks|;
            var s2, s3 := RunFrom(cs, Step(cs, s, ask), between), CallThenPoll(cs, s, ask, between);
            var to := if relation.aId == ctx.peerId then relation.bId else relation.aId;
            var ok := RelationTaken(cs, s, s2, ctx, relation, to);
            && t < |s2.tasks| && t < |s3.tasks| && s3.tasks[t] == Finished(ok)
            && (ok ==> EventDelivered(Finish(s2, t, true), s3, to, PairingResponse(relation)))
            && (!ok ==> OnlyFinished(s2, s3, t, false))
  {
    var ask, t := Ask(ctx, PairResponse(relation)), |s.tasks|;
    var to := if relation.aId == ctx.peerId then relation.bId else relation.aId;
    var s1, s2 := Step(cs, s, ask), RunFrom(cs, Step(cs, s, ask), between);
    var f := PairResponseFuture(s, ctx, relation);
    assert s1 == AddTask(s, f);
    FutureWaits(cs, s1, between, t);
    StillReached(cs, s, ask, between);
    if f.ResponseTask? {
      assert f == ResponseTask(ctx, relation, to, Get(s.hosted, to)) && Names(relation, ctx.peerId, to);
      ResponsePolled(cs, s2, t, ctx, relation, to, Get(s.hosted, to));
    } else {
      RefusedPolled(cs, s2, t);
    }
  }

  lemma ResponsePolled(cs: Scheme, s: Server, t: nat, ctx: Context, relation: Proof, to: ProfileId,
                       stored: Option<OwnProfile>)
    requires AllReached(s.objects, false) && t < |s.tasks| && s.tasks[t] == ResponseTask(ctx, relation, to, stored)
    ensures var s', ok := Step(cs, s, Poll(t)), ProofHolds(cs, relation, ctx, stored) && to in s.hosted;
            && t < |s'.tasks| && s'.tasks[t] == Finished(ok)
            && (ok ==> EventDelivered(Finish(s, t, true), s', to, PairingResponse(relation)))
            && (!ok ==> OnlyFinished(s, s', t, false))
  {
    PollTasks(cs, s, t);
    PushDeliversEvent(Finish(s, t, true), to, PairingResponse(relation));
  }

  // ------------------------------------------------------------------ calls

  /** Call `c` was placed by the persona for that application and callee, and waits for its poll. */
  predicate Placed(s: Server, c: nat, t: nat, ctx: Context, app: AppId, relation: Proof, to: ProfileId) {
    && c < |s.calls| && s.calls[c].caller == ctx && s.calls[c].app == app
    && s.calls[c].relation == relation && s.calls[c].callee == to && s.calls[c].task == t
    && s.calls[c].slot.None? && s.calls[c].outcome.None?
  }

  lemma {:induction false} CallWaits(cs: Scheme, s: Server, run: seq<Action>, t: nat)
    requires CallTasksFresh(s) && t < |s.tasks| && s.tasks[t].CallTask? && NotPolled(run, t)
    ensures var s', c := RunFrom(cs, s, run), s.tasks[t].call;
            && CallTasksFresh(s') && t < |s'.tasks| && s'.tasks[t] == s.tasks[t]
            && c < |s.calls| && c < |s'.calls| && Extends(s.calls[c], s'.calls[c])
  {
    if run != [] {
      var before, a := run[..|run| - 1], run[|run| - 1];
      CallWaits(cs, s, before, t);
      FutureWaits(cs, s, run, t);
      StepKeepsFresh(cs, RunFrom(cs, s, before), a);
      StepGrows(cs, RunFrom(cs, s, before), a);
    }
  }

  /** The application named has one message more in the session, the call, and the call knows it. */
  ghost predicate CallPushed(s: Server, s': Server, j: nat, app: AppId, c: nat) {
    && j < |s.objects| == |s'.objects| && app in s'.objects[j].apps && c < |s'.calls|
    && var was, now := AppSink(s.objects[j], app), s'.objects[j].apps[app];
    && s'.objects == s.objects[j := s.objects[j].(apps := s.objects[j].apps[app := now])]
    && Sinks.Contents(now) == Sinks.Contents(was) + multiset{Sinks.Item(|was.calls|, c)}
    && s'.calls[c].slot == Some(Slot(j, app, |was.calls|)) && s'.calls[c].app == app
  }

  /** A call goes through if and only if its relation is taken. Then its poll pushes it, once, on the
      sink of the application asked for in the live session of the callee, if there is one, and the
      caller waits; otherwise the caller's future fails and no session changes. */
  lemma CallExactly(cs: Scheme, s: Server, ctx: Context, app: AppId, relation: Proof, between: seq<Action>)
    requires ValidContext(cs, ctx) && NotPolled(between, |s.tasks|) && AllReached(s.objects, false) && CallTasksFresh(s)
    requires ctx.peerId in {relation.aId, relation.bId}
    ensures var ask, t, c := Ask(ctx, PlaceCall(app, relation)), |s.tasks|, |s.calls|;
            var s2, s3 := RunFrom(cs, Step(cs, s, ask), between), CallThenPoll(cs, s, ask, between);
            var to := if relation.aId == ctx.peerId then relation.bId else relation.aId;
            var ok := RelationTaken(cs, s, s2, ctx, relation, to);
            && t < |s3.tasks| && s3.tasks[t] == Finished(ok) && c < |s3.calls|
            && (ok ==> s3.calls[c].awaiting && s3.calls[c].outcome.None?)
            && (ok && LiveSession(s2, to).Some? ==> CallPushed(s2, s3, LiveSession(s2, to).value, app, c))
            && (ok && LiveSession(s2, to).None? ==> s3.objects == s2.objects && s3.calls[c].slot.None?)
            && (!ok ==> s3.objects == s2.objects && s3.calls[c].slot.None? && s3.calls[c].outcome == Some(Failed))
  {
    var ask, t, c := Ask(ctx, PlaceCall(app, relation)), |s.tasks|, |s.calls|;
    var to := if relation.aId == ctx.peerId then relation.bId else relation.aId;
    var s1 := Step(cs, s, ask);
    CallAsked(cs, s, ctx, app, relation);
    StepKeepsFresh(cs, s, ask);
    CallWaits(cs, s1, between, t);
    StillReached(cs, s, ask, between);
    CallPolled(cs, RunFrom(cs, s1, between), t, c, ctx, app, relation, to, Get(s.hosted, to));
  }

  lemma CallAsked(cs: Scheme, s: Server, ctx: Context, app: AppId, relation: Proof)
    requires ValidContext(cs, ctx) && ctx.peerId in {relation.aId, relation.bId}
    ensures var s1, t, c := Step(cs, s, Ask(ctx, PlaceCall(app, relation))), |s.tasks|, |s.calls|;
            var to := if relation.aId == ctx.peerId then relation.bId else relation.aId;
            && s1.tasks == s.tasks + [CallTask(c, Get(s.hosted, to))] && |s1.calls| == c + 1
            && Placed(s1, c, t, ctx, app, relation, to)
  {
  }

  lemma CallPolled(cs: Scheme, s: Server, t: nat, c: nat, ctx: Context, app: AppId, relation: Proof, to: ProfileId,
                   stored: Option<OwnProfile>)
    requires CallTasksFresh(s) && AllReached(s.objects, false)
    requires t < |s.tasks| && s.tasks[t] == CallTask(c, stored) && Placed(s, c, t, ctx, app, relation, to)
    ensures var s', ok := PollStep(cs, s, t), ProofHolds(cs, relation, ctx, stored) && to in s.hosted;
            && s'.tasks == s.tasks[t := Finished(ok)] && |s'.calls| == |s.calls|
            && (ok ==> s'.calls[c].awaiting && s'.calls[c].outcome.None?)
            && (ok && LiveSession(s, to).Some? ==> CallPushed(s, s', LiveSession(s, to).value, app, c))
            && (ok && LiveSession(s, to).None? ==> s'.objects == s.objects && s'.calls[c].slot.None?)
            && (!ok ==> s'.objects == s.objects && s'.calls[c].slot.None? && s'.calls[c].outcome == Some(Failed))
  {
    PushDeliversCall(Finish(s, t, true), c);
  }

  /** The caller's future, once somebody has answered: whatever happens, it never comes to anything
      but the sink that was given. */
  lemma {:induction false} AnsweredCallerGetsTheSink(cs: Scheme, s: Server, run: seq<Action>, c: nat)
    requires CallTasksFresh(s) && c < |s.calls| && s.calls[c].slot.Some? && s.calls[c].answer.Some?
    requires s.calls[c].outcome.None?
    ensures var s' := RunFrom(cs, s, run);
            && CallTasksFresh(s') && c < |s'.calls| && s'.calls[c].answer == s.calls[c].answer && s'.calls[c].slot.Some?
            && (s'.calls[c].outcome.None? || s'.calls[c].outcome == Some(Got(s.calls[c].answer.value)))
            && (s.calls[c].awaiting ==> s'.calls[c].awaiting)
  {
    if run != [] {
      var before, a := run[..|run| - 1], run[|run| - 1];
      AnsweredCallerGetsTheSink(cs, s, before, c);
      StepKeepsFresh(cs, RunFrom(cs, s, before), a);
      StepGrows(cs, RunFrom(cs, s, before), a);
      AnsweredStep(cs, RunFrom(cs, s, before), a, c);
    }
  }

  lemma AnsweredStep(cs: Scheme, s: Server, a: Action, c: nat)
    requires CallTasksFresh(s) && c < |s.calls| && s.calls[c].slot.Some? && s.calls[c].answer.Some?
    ensures var s' := Step(cs, s, a);
            && c < |s'.calls|
            && (s'.calls[c].outcome == s.calls[c].outcome
                || (s.calls[c].outcome.None? && s'.calls[c].outcome == Some(Got(s.calls[c].answer.value))))
            && (s.calls[c].awaiting ==> s'.calls[c].awaiting)
  {
    match a
    case Poll(i) =>
      if i < |s.tasks| && s.tasks[i].CallTask? { PollCallTouches(cs, s, i); }
      else if i < |s.tasks| { PollOtherKeepsCalls(cs, s, i); }
    case OnSession(j, what) =>
    case Ask(ctx, request) =>
    case OnCall(d, step) =>
    case EventChannel(_, _, _) =>
    case AppChannel(_, _, _, _) =>
  }

  lemma PollOtherKeepsCalls(cs: Scheme, s: Server, i: nat)
    requires i < |s.tasks| && !s.tasks[i].CallTask?
    ensures PollStep(cs, s, i).calls == s.calls
  {
  }

  /** What each step on a call does: an answer to a call that is held and not yet answered records the
      sink given, and no other answer changes anything; a waiting caller gets the answer if there is
      one, and nothing or a failure only if there is none. */
  lemma CallStepExactly(cs: Scheme, s: Server, c: nat, sink: Option<AppMsgSink>)
    requires c < |s.calls|
    ensures var r := s.calls[c];
            var open, answered := r.awaiting && r.outcome.None?, r.answer.Some?;
            && Step(cs, s, OnCall(c, Answer(sink))) ==
               (if Delivered(s, c) && !answered then s.(calls := s.calls[c := r.(answer := Some(sink))]) else s)
            && Step(cs, s, OnCall(c, Resolve)) ==
               (if open && answered then s.(calls := s.calls[c := r.(outcome := Some(Got(r.answer.value)))]) else s)
            && Step(cs, s, OnCall(c, Timeout)) ==
               (if open && !answered then s.(calls := s.calls[c := r.(outcome := Some(Got(None)))]) else s)
            && Step(cs, s, OnCall(c, Abandon)) ==
               (if open && !answered then s.(calls := s.calls[c := r.(outcome := Some(Failed))]) else s)
  {
  }

  /** From the answer to the caller: a held, unanswered call of a waiting caller is answered, anything
      happens, the caller's future is resolved; if it was not resolved before, it is now, and in any
      case with the sink that was given. */
  lemma AnswerReachesCaller(cs: Scheme, s: Server, c: nat, sink: Option<AppMsgSink>, between: seq<Action>)
    requires CallTasksFresh(s) && Delivered(s, c) && s.calls[c].answer.None?
    requires s.calls[c].awaiting && s.calls[c].outcome.None?
    ensures var s' := Step(cs, RunFrom(cs, Step(cs, s, OnCall(c, Answer(sink))), between), OnCall(c, Resolve));
            c < |s'.calls| && s'.calls[c].outcome == Some(Got(sink))
  {
    var s1 := Step(cs, s, OnCall(c, Answer(sink)));
    StepKeepsFresh(cs, s, OnCall(c, Answer(sink)));
    AnsweredCallerGetsTheSink(cs, s1, between, c);
    CallStepExactly(cs, RunFrom(cs, s1, between), c, sink);
  }

  // ------------------------------------------------------------------ sessions

  /** `events` subscribes the event sink of its own session and touches nothing else. */
  lemma EventsExactly(cs: Scheme, s: Server, j: nat)
    requires AllReached(s.objects, false) && j < |s.objects| && s.objects[j].live
    ensures var s' := Step(cs, s, OnSession(j, Events));
            && |s'.objects| == |s.objects|
            && var was, now := s.objects[j].events, s'.objects[j].events;
            && s' == s.(objects := s.objects[j := s.objects[j].(events := now)])
            && Opened(was, now)
  {
    assert SessionReached(s.objects[j], false);
    Sinks.ReachedHasInvariant(s.objects[j].events, false);
    Sinks.SubscribeOpens(s.objects[j].events);
  }

  /** `checkin_app` subscribes the sink of the application named, new or not, and nothing else. */
  lemma CheckinExactly(cs: Scheme, s: Server, j: nat, app: AppId)
    requires AllReached(s.objects, false) && j < |s.objects| && s.objects[j].live
    ensures var s' := Step(cs, s, OnSession(j, Checkin(app)));
            && |s'.objects| == |s.objects| && app in s'.objects[j].apps
            && var was, now := AppSink(s.objects[j], app), s'.objects[j].apps[app];
            && s' == s.(objects := s.objects[j := s.objects[j].(apps := s.objects[j].apps[app := now])])
            && Opened(was, now)
  {
    assert SessionReached(s.objects[j], false);
    Sinks.ReachedEmpty<nat>(false);
    Sinks.ReachedHasInvariant(AppSink(s.objects[j], app), false);
    Sinks.SubscribeOpens(AppSink(s.objects[j], app));
  }

  /** There is one channel more, open, current and with nothing received; the first one is given the
      buffer, any later one warns the channel it supersedes. */
  predicate Opened<T(==)>(was: Sinks.Sink<T>, now: Sinks.Sink<T>) {
    && |now.chans| == |was.chans| + 1 && now.source == Sinks.Sender(|was.chans|)
    && now.calls == was.calls + [Sinks.Subscribe]
    && now.chans[|was.chans|].open && now.chans[|was.chans|].received == []
    && (was.chans == [] ==> now.chans[0].flush == Sinks.Buffered(was.calls))
    && (was.chans != [] ==>
          && now.chans[|was.chans|].flush == []
          && Sinks.Warning in now.chans[|was.chans| - 1].pending)
  }

  /** Dropping a session ends that session and no other, and removes the entry of its profile and no
      other entry; the stores stay as they are. */
  lemma DropExactly(cs: Scheme, s: Server, j: nat)
    requires j < |s.objects| && s.objects[j].live
    ensures var s', id := Step(cs, s, OnSession(j, Drop)), s.objects[j].ctx.peerId;
            && |s'.objects| == |s.objects| && !s'.objects[j].live
            && (forall i :: 0 <= i < |s.objects| && i != j ==> s'.objects[i] == s.objects[i])
            && (forall x :: x in s'.sessions <==> x in s.sessions && x != id)
            && (forall x :: x in s'.sessions ==> s'.sessions[x] == s.sessions[x])
            && s'.hosted == s.hosted && s'.public == s.public && s'.tasks == s.tasks && s'.calls == s.calls
  {
  }

  /** Unregistering ends no session; it removes the entry and the profile of its own id, and no other,
      and succeeds exactly when the id was hosted. */
  lemma UnregisterExactly(cs: Scheme, s: Server, j: nat)
    requires j < |s.objects| && s.objects[j].live && s.hosted.Keys == s.public.Keys
    ensures var s', id := Step(cs, s, OnSession(j, Unregister)), s.objects[j].ctx.peerId;
            && s'.objects == s.objects && s'.calls == s.calls
            && s'.tasks == s.tasks + [Finished(id in s.hosted)]
            && (forall x :: x in s'.sessions <==> x in s.sessions && x != id)
            && (forall x :: x in s'.hosted <==> x in s.hosted && x != id)
            && (forall x :: x in s'.public <==> x in s.public && x != id)
            && (forall x :: x in s'.hosted ==> s'.hosted[x] == s.hosted[x])
  {
  }

  /** A connection whose key does not hash to its id gets nothing done. */
  lemma InvalidContextRefused(cs: Scheme, s: Server, ctx: Context, request: Request)
    ensures Step(cs, s, Ask(ctx, request)) == s <==> !cs.matches(ctx.peerKey, ctx.peerId)
  {
    if ValidContext(cs, ctx) { assert |Step(cs, s, Ask(ctx, request)).tasks| == |s.tasks| + 1; }
  }
}
