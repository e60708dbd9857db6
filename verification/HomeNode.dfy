/** The home server as an object that is updated in place. Each method is one atomic step of the
    server, or a part of one; what it leaves behind is the step of module HomeServer, and what holds
    in every run of the server, whatever clients send, is kept. */
module HomeNode {
  import opened Prelude
  import opened Relation
  import opened HomeServer
  import opened HomeStores
  import opened HomeCalls
  import opened HomeSinks
  import Sinks = EventSink

  /** The stores agree with each other and with the log, every sink conserves what was pushed on it,
      and every call knows the one slot it was pushed to. */
  ghost predicate RunInvariant(cs: Scheme, s: Server) {
    && StoreInvariant(cs, s) && AllReached(s.objects, false)
    && CallTasksFresh(s) && SlotsRecorded(s.objects, s.calls)
  }

  lemma StepKeepsAll(cs: Scheme, s: Server, a: Action)
    requires RunInvariant(cs, s)
    ensures RunInvariant(cs, Step(cs, s, a))
  {
    StepKeepsStores(cs, s, a);
    StepReaches(cs, s, a, false);
    StepKeepsFresh(cs, s, a);
    StepRecords(cs, s, a);
  }

  lemma {:induction false} AllInEveryRun(cs: Scheme, home: Signer, run: seq<Action>)
    ensures RunInvariant(cs, Run(cs, home, run))
  {
    if run != [] {
      AllInEveryRun(cs, home, run[..|run| - 1]);
      StepKeepsAll(cs, Run(cs, home, run[..|run| - 1]), run[|run| - 1]);
    }
  }

  // ------------------------------------------------------------------ the object

  class Node {
    const cs: Scheme
    const home: Signer
    var publicDht: map<ProfileId, Profile>
    var hostedDb: map<ProfileId, OwnProfile>
    var sessions: map<ProfileId, nat>
    var objects: seq<Session>
    var futures: seq<Task>
    var calls: seq<CallRecord>
    var log: seq<Entry>

    ghost function View(): Server
      reads this
    {
      Server(home, publicDht, hostedDb, sessions, objects, futures, calls, log)
    }

    ghost predicate Valid()
      reads this
    {
      RunInvariant(cs, View())
    }

    constructor (cs: Scheme, home: Signer)
      ensures this.cs == cs && this.home == home && View() == Fresh(home) && Valid()
    {
      this.cs, this.home := cs, home;
      publicDht, hostedDb, sessions, objects, futures, calls, log := map[], map[], map[], [], [], [], [];
      new;
      AllInEveryRun(cs, home, []);
    }

    /** The future made last. */
    method NewFuture(t: Task) returns (f: nat)
      modifies this
      ensures f == |old(futures)| && View() == AddTask(old(View()), t)
    {
      f := |futures|;
      futures := futures + [t];
    }

    /** `register`, up to the returned future. */
    method RegisterProfile(ctx: Context, own: OwnProfile, half: HalfProof) returns (f: nat)
      requires Valid() && ValidContext(cs, ctx)
      modifies this
      ensures Valid() && View() == Step(cs, old(View()), Ask(ctx, Register(own, half))) && f == |old(futures)|
    {
      StepKeepsAll(cs, View(), Ask(ctx, Register(own, half)));
      if own.profile.id != ctx.peerId || own.profile.publicKey != ctx.peerKey
         || half.signerId != ctx.peerId || half.peerId != home.id
         || half.relationType != HOSTED_ON_HOME || !ValidHalf(cs, half, ctx.peerKey) {
        f := NewFuture(Finished(false));
        return;
      }
      var proof := SignRemainingHalf(cs, half, home);
      if proof.None? || !own.profile.facet.Persona? {
        f := NewFuture(Finished(false));
        return;
      }
      var facet := own.profile.facet.(homes := own.profile.facet.homes + [proof.value]);
      var free := own.profile.id !in hostedDb;
      f := NewFuture(RegisterTask(own.(profile := own.profile.(facet := facet)), free));
    }

    /** `login`, up to the returned future. */
    method LoginWith(ctx: Context, proof: Proof) returns (f: nat)
      requires Valid() && ValidContext(cs, ctx)
      modifies this
      ensures Valid() && View() == Step(cs, old(View()), Ask(ctx, Login(proof))) && f == |old(futures)|
      ensures |futures| == f + 1
      ensures var other := if proof.aId == home.id then proof.bId else proof.aId;
              futures[f] == if proof.relationType == HOSTED_ON_HOME && home.id in {proof.aId, proof.bId}
                            then LoginTask(ctx, other, other in hostedDb) else Finished(false)
    {
      StepKeepsAll(cs, View(), Ask(ctx, Login(proof)));
      var named := PeerId(proof, home.id);
      if proof.relationType != HOSTED_ON_HOME || named.None? {
        f := NewFuture(Finished(false));
      } else {
        f := NewFuture(LoginTask(ctx, named.value, named.value in hostedDb));
      }
    }

    /** The poll that writes both stores. */
    method WriteBoth(own: OwnProfile, entry: Entry)
      modifies this
      ensures View() == WriteProfile(old(View()), own, entry)
    {
      publicDht := publicDht[own.profile.id := own.profile];
      hostedDb := hostedDb[own.profile.id := own];
      log := log + [entry];
    }

    /** Polls the future of a `register` or an `update`. */
    method PollWrite(f: nat)
      requires Valid() && f < |futures| && (futures[f].RegisterTask? || futures[f].UpdateTask?)
      modifies this
      ensures Valid() && View() == Step(cs, old(View()), Poll(f))
    {
      StepKeepsAll(cs, View(), Poll(f));
      var t := futures[f];
      var go := if t.RegisterTask? then t.free else t.found;
      futures := futures[f := Finished(go)];
      if go { WriteBoth(t.own, if t.RegisterTask? then Registered(t.own) else Updated(t.own)); }
    }

    /** Polls the future of a `login`: the session is made, and entered unless there is one. */
    method PollLogin(f: nat)
      requires Valid() && f < |futures| && futures[f].LoginTask?
      modifies this
      ensures Valid() && View() == Step(cs, old(View()), Poll(f))
    {
      StepKeepsAll(cs, View(), Poll(f));
      var t := futures[f];
      futures := futures[f := Finished(t.found)];
      if t.found {
        var j := |objects|;
        objects := objects + [NewSession(t.ctx)];
        if t.named !in sessions { sessions := sessions[t.named := j]; }
        log := log + [LoggedIn(t.named, j)];
      }
    }

    /** `push_event` of the connection. */
    method Deliver(to: ProfileId, event: Event)
      requires AllReached(objects, false)
      modifies this
      ensures View() == PushEvent(old(View()), to, event) && EventDelivered(old(View()), View(), to, event)
    {
      PushDeliversEvent(View(), to, event);
      if to !in sessions { return; }
      var j := sessions[to];
      if j < |objects| && objects[j].live {
        objects := objects[j := objects[j].(events := Sinks.PushTo(objects[j].events, event))];
      }
    }

    /** Polls the future of a `pair_request` or a `pair_response`. */
    method PollPairing(f: nat)
      requires Valid() && f < |futures| && (futures[f].RequestTask? || futures[f].ResponseTask?)
      modifies this
      ensures Valid() && View() == Step(cs, old(View()), Poll(f))
    {
      StepKeepsAll(cs, View(), Poll(f));
      var t := futures[f];
      var go := if t.RequestTask? then t.hosted
                else ProofHolds(cs, t.relation, t.ctx, t.stored) && t.to in hostedDb;
      futures := futures[f := Finished(go)];
      if go {
        if t.RequestTask? { Deliver(t.half.peerId, PairingRequest(t.half)); }
        else { Deliver(t.to, PairingResponse(t.relation)); }
      }
    }

    /** `unregister`: entry and both stores are cleared at once. */
    method UnregisterOwner(j: nat) returns (ok: bool)
      requires Valid() && j < |objects| && objects[j].live
      modifies this
      ensures Valid() && View() == Step(cs, old(View()), OnSession(j, Unregister))
      ensures ok <==> old(objects[j].ctx.peerId in hostedDb)
    {
      StepKeepsAll(cs, View(), OnSession(j, Unregister));
      var id := objects[j].ctx.peerId;
      sessions := sessions - {id};
      ok := id in publicDht && id in hostedDb;
      hostedDb := hostedDb - {id};
      publicDht := publicDht - {id};
      futures := futures + [Finished(ok)];
      log := log + [Unregistered(id, ok)];
    }

    /** `Drop` of a session. */
    method DropLast(j: nat)
      requires Valid() && j < |objects| && objects[j].live
      modifies this
      ensures Valid() && View() == Step(cs, old(View()), OnSession(j, Drop))
    {
      StepKeepsAll(cs, View(), OnSession(j, Drop));
      var id := objects[j].ctx.peerId;
      objects := objects[j := objects[j].(live := false)];
      sessions := sessions - {id};
      log := log + [Dropped(id)];
    }

    /** `claim` finds what the latest effective registration or update wrote. */
    method ClaimOwn(ctx: Context, id: ProfileId) returns (own: Option<OwnProfile>)
      requires Valid()
      ensures own == if id == ctx.peerId then CurrentProfile(log, id) else None
    {
      assert Get(View().hosted, id) == CurrentProfile(View().log, id);
      if id != ctx.peerId || id !in hostedDb { return None; }
      own := Some(hostedDb[id]);
    }

    /** `pair_request`, up to the returned future. */
    method RequestPairing(ctx: Context, half: HalfProof) returns (f: nat)
      requires Valid() && ValidContext(cs, ctx)
      modifies this
      ensures Valid() && View() == Step(cs, old(View()), Ask(ctx, PairRequest(half))) && f == |old(futures)|
    {
      StepKeepsAll(cs, View(), Ask(ctx, PairRequest(half)));
      if half.signerId != ctx.peerId || !ValidHalf(cs, half, ctx.peerKey) {
        f := NewFuture(Finished(false));
      } else {
        f := NewFuture(RequestTask(half, half.peerId in hostedDb));
      }
    }

    /** `pair_response`, up to the returned future. */
    method RespondPairing(ctx: Context, relation: Proof) returns (f: nat)
      requires Valid() && ValidContext(cs, ctx)
      modifies this
      ensures Valid() && View() == Step(cs, old(View()), Ask(ctx, PairResponse(relation))) && f == |old(futures)|
    {
      StepKeepsAll(cs, View(), Ask(ctx, PairResponse(relation)));
      var to := PeerId(relation, ctx.peerId);
      if to.None? {
        f := NewFuture(Finished(false));
      } else {
        f := NewFuture(ResponseTask(ctx, relation, to.value, Get(hostedDb, to.value)));
      }
    }

    /** `call`, up to the returned future. */
    method CallPeer(ctx: Context, app: AppId, relation: Proof) returns (f: nat)
      requires Valid() && ValidContext(cs, ctx)
      modifies this
      ensures Valid() && View() == Step(cs, old(View()), Ask(ctx, PlaceCall(app, relation))) && f == |old(futures)|
      ensures var to := if relation.aId == ctx.peerId then relation.bId else relation.aId;
              calls == old(calls) + if ctx.peerId in {relation.aId, relation.bId}
                                    then [CallRecord(ctx, to, app, relation, f, None, false, None, None)] else []
    {
      StepKeepsAll(cs, View(), Ask(ctx, PlaceCall(app, relation)));
      var to := PeerId(relation, ctx.peerId);
      if to.None? {
        f := NewFuture(Finished(false));
      } else {
        f := NewFuture(CallTask(|calls|, Get(hostedDb, to.value)));
        calls := calls + [CallRecord(ctx, to.value, app, relation, f, None, false, None, None)];
      }
    }

    /** `push_call` of the connection: the call goes to the application of the live session, whose
        buffer is made on its first call. */
    method DeliverCall(c: nat)
      requires c < |calls| && AllReached(objects, false)
      modifies this
      ensures View() == PushCall(old(View()), c) && CallDelivered(old(View()), View(), c)
    {
      PushDeliversCall(View(), c);
      var r := calls[c];
      if r.callee !in sessions || sessions[r.callee] >= |objects| || !objects[sessions[r.callee]].live {
        calls := calls[c := r.(awaiting := true)];
        return;
      }
      var j := sessions[r.callee];
      var o := objects[j];
      var sink := if r.app in o.apps then o.apps[r.app] else Sinks.EmptySink();
      objects := objects[j := o.(apps := o.apps[r.app := Sinks.PushTo(sink, c)])];
      calls := calls[c := r.(awaiting := true, slot := Some(Slot(j, r.app, |sink.calls|)))];
    }

    /** Polls the future of a `call` for the first time. */
    method PollCall(f: nat)
      requires Valid() && f < |futures| && futures[f].CallTask? && futures[f].call < |calls|
      modifies this
      ensures Valid() && View() == Step(cs, old(View()), Poll(f))
    {
      ghost var before := View();
      StepKeepsAll(cs, before, Poll(f));
      var t, r := futures[f], calls[futures[f].call];
      var go := ProofHolds(cs, r.relation, r.caller, t.stored) && r.callee in hostedDb;
      assert Step(cs, before, Poll(f)) == if go then PushCall(Finish(before, f, true), t.call)
                                          else FailCall(Finish(before, f, false), t.call);
      futures := futures[f := Finished(go)];
      if go { DeliverCall(t.call); }
      else { calls := calls[t.call := r.(outcome := Some(Failed))]; }
    }

    /** `answer` sends the sink through the oneshot; nobody else can answer the call again. */
    method AnswerCall(c: nat, sink: Option<AppMsgSink>)
      requires Valid() && Delivered(View(), c) && calls[c].answer.None?
      modifies this
      ensures Valid() && View() == Step(cs, old(View()), OnCall(c, Answer(sink)))
      ensures calls == old(calls)[c := old(calls)[c].(answer := Some(sink))]
    {
      StepKeepsAll(cs, View(), OnCall(c, Answer(sink)));
      calls := calls[c := calls[c].(answer := Some(sink))];
    }

    /** `update`, up to the returned future. */
    method UpdateOwner(j: nat, own: OwnProfile) returns (f: nat)
      requires Valid() && j < |objects| && objects[j].live
      modifies this
      ensures Valid() && View() == Step(cs, old(View()), OnSession(j, Update(own))) && f == |old(futures)|
    {
      StepKeepsAll(cs, View(), OnSession(j, Update(own)));
      var ctx := objects[j].ctx;
      if own.profile.id != ctx.peerId || own.profile.publicKey != ctx.peerKey {
        f := NewFuture(Finished(false));
      } else {
        f := NewFuture(UpdateTask(own, own.profile.id in hostedDb));
      }
    }

    /** `events` of a session; the result is the new channel. */
    method EventStream(j: nat) returns (chan: nat)
      requires Valid() && j < |objects| && objects[j].live
      modifies this
      ensures Valid() && View() == Step(cs, old(View()), OnSession(j, Events))
      ensures chan == |old(objects)[j].events.chans|
    {
      StepKeepsAll(cs, View(), OnSession(j, Events));
      chan := |objects[j].events.chans|;
      objects := objects[j := objects[j].(events := Sinks.SubscribeTo(objects[j].events))];
    }

    /** `checkin_app` of a session. */
    method CheckinApp(j: nat, app: AppId)
      requires Valid() && j < |objects| && objects[j].live
      modifies this
      ensures Valid() && View() == Step(cs, old(View()), OnSession(j, Checkin(app)))
    {
      StepKeepsAll(cs, View(), OnSession(j, Checkin(app)));
      var o := objects[j];
      var sink := if app in o.apps then o.apps[app] else Sinks.EmptySink();
      objects := objects[j := o.(apps := o.apps[app := Sinks.SubscribeTo(sink)])];
    }
  }
}
