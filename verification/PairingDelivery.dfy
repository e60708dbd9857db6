/** What becomes of an acceptance: over every run of the network, when the response reaches the
    initiator, where it is afterwards, and when both parties hold the same proof. */
module PairingDelivery {
  import opened Prelude
  import opened Relation
  import opened HomeServer
  import opened HomeInvariants
  import opened Pairing
  import Sinks = EventSink

  // ------------------------------------------------------------------ one step, seen from a home

  /** What a step of the network does at home `h`. */
  function ActionAt(cs: Scheme, net: Net, a: NetAction, h: nat): Option<Action>
    requires h < |net.homes|
  {
    if (a.Initiate? || a.Accept? || a.Handle?) && a.client >= |net.clients| then None else
    if a.Accepted? || a.home != h then None else
    match a
    case AtHome(_, action) => Some(action)
    case Initiate(c, relationType, peer, _) => Some(Invitation(cs, net.clients[c], relationType, peer))
    case Accept(c, half, _) =>
      var signed := SignRemainingHalf(cs, half, net.clients[c].signer);
      if signed.None? || !ValidContext(cs, ContextOf(net.clients[c])) then None
      else Some(Ask(ContextOf(net.clients[c]), PairResponse(signed.value)))
    case Handle(c, _, j, ch) => if CanHandle(net, c, h, j, ch) then Some(EventChannel(j, ch, Sinks.Receive)) else None
  }

  /** There is an event for the client on that stream of its own session. */
  predicate CanHandle(net: Net, c: nat, h: nat, j: nat, ch: nat)
    requires c < |net.clients| && h < |net.homes|
  {
    var objects := net.homes[h].objects;
    && j < |objects| && objects[j].ctx.peerId == net.clients[c].signer.id
    && ch < |objects[j].events.chans| && objects[j].events.chans[ch].queue != []
  }

  lemma HomeMoves(cs: Scheme, net: Net, a: NetAction, h: nat)
    requires h < |net.homes|
    ensures |NetStep(cs, net, a).homes| == |net.homes|
    ensures NetStep(cs, net, a).homes[h] ==
            match ActionAt(cs, net, a, h) case None => net.homes[h] case Some(act) => Step(cs, net.homes[h], act)
  {
    match a
    case AtHome(g, action) =>
    case Initiate(c, relationType, peer, g) =>
    case Accept(c, half, g) =>
    case Accepted(c, k) =>
    case Handle(c, g, j, ch) =>
  }

  /** The record of an acceptance never changes but in `done`, and relations are never dropped. */
  predicate ClientGrows(c: Client, c': Client) {
    && c'.signer == c.signer && c.relations <= c'.relations && |c.accepting| <= |c'.accepting|
    && forall k :: 0 <= k < |c.accepting| ==>
         c'.accepting[k] == c.accepting[k] || c'.accepting[k] == c.accepting[k].(done := true)
  }

  lemma ClientsGrow(cs: Scheme, net: Net, a: NetAction, b: nat)
    requires b < |net.clients|
    ensures |NetStep(cs, net, a).clients| == |net.clients|
    ensures ClientGrows(net.clients[b], NetStep(cs, net, a).clients[b])
  {
    match a
    case AtHome(g, action) =>
    case Initiate(c, relationType, peer, g) =>
    case Accept(c, half, g) =>
    case Accepted(c, k) =>
    case Handle(c, g, j, ch) =>
  }

  /** A record that was not there before was made by `accept_relation`, with a future that is not
      finished well. */
  lemma NewRecord(cs: Scheme, net: Net, a: NetAction, b: nat, k: nat)
    requires b < |net.clients| && |net.clients[b].accepting| <= k < |NetStep(cs, net, a).clients[b].accepting|
    ensures var net', rec := NetStep(cs, net, a), NetStep(cs, net, a).clients[b].accepting[k];
            && !rec.done && rec.home < |net'.homes| && rec.task < |net'.homes[rec.home].tasks|
            && net'.homes[rec.home].tasks[rec.task] != Finished(true)
  {
  }

  // ------------------------------------------------------------------ runs

  function NetAfter(cs: Scheme, start: Net, run: seq<NetAction>, n: nat): Net
    requires n <= |run|
  {
    NetRun(cs, start, run[..n])
  }

  lemma NetAfterStep(cs: Scheme, start: Net, run: seq<NetAction>, n: nat)
    requires n < |run|
    ensures NetAfter(cs, start, run, n + 1) == NetStep(cs, NetAfter(cs, start, run, n), run[n])
  {
    assert run[..n + 1][..n] == run[..n];
  }

  lemma SoundAfter(cs: Scheme, homes: seq<Signer>, clients: seq<Signer>, run: seq<NetAction>, n: nat)
    requires cs.CollisionFree() && OwnProofsOnly(homes, run) && n <= |run|
    requires forall c :: 0 <= c < |clients| ==> clients[c].Valid(cs)
    ensures NetSound(cs, NetAfter(cs, NewNet(homes, clients), run, n))
  {
    RelationsAlwaysValid(cs, homes, clients, run[..n]);
  }

  lemma StepKeepsSizes(cs: Scheme, net: Net, a: NetAction)
    ensures |NetStep(cs, net, a).homes| == |net.homes| && |NetStep(cs, net, a).clients| == |net.clients|
  {
    if |net.homes| > 0 { HomeMoves(cs, net, a, 0); }
    if |net.clients| > 0 { ClientsGrow(cs, net, a, 0); }
  }

  lemma {:induction false} RunKeepsSizes(cs: Scheme, start: Net, run: seq<NetAction>)
    ensures |NetRun(cs, start, run).homes| == |start.homes| && |NetRun(cs, start, run).clients| == |start.clients|
  {
    if run != [] {
      RunKeepsSizes(cs, start, run[..|run| - 1]);
      StepKeepsSizes(cs, NetRun(cs, start, run[..|run| - 1]), run[|run| - 1]);
    }
  }

  lemma SizesStay(cs: Scheme, start: Net, run: seq<NetAction>, n: nat)
    requires n <= |run|
    ensures |NetAfter(cs, start, run, n).homes| == |start.homes|
    ensures |NetAfter(cs, start, run, n).clients| == |start.clients|
  {
    RunKeepsSizes(cs, start, run[..n]);
  }

  // ------------------------------------------------------------------ the poll of a response

  /** Step `i` of the run polls the response of this record, and its home takes it. */
  ghost predicate TakenAt(cs: Scheme, start: Net, run: seq<NetAction>, i: nat, me: Context, rec: Accepting) {
    i < |run| && TakenNow(cs, NetAfter(cs, start, run, i), run[i], me, rec)
  }

  lemma {:induction false} FinishedWasTaken(cs: Scheme, homes: seq<Signer>, clients: seq<Signer>, run: seq<NetAction>,
                                            n: nat, b: nat, k: nat) returns (i: nat)
    requires cs.CollisionFree() && OwnProofsOnly(homes, run) && n <= |run|
    requires forall c :: 0 <= c < |clients| ==> clients[c].Valid(cs)
    requires var net := NetAfter(cs, NewNet(homes, clients), run, n);
             && b < |net.clients| && k < |net.clients[b].accepting|
             && var rec := net.clients[b].accepting[k];
             && rec.home < |net.homes| && rec.task < |net.homes[rec.home].tasks|
             && net.homes[rec.home].tasks[rec.task] == Finished(true)
    ensures var net := NetAfter(cs, NewNet(homes, clients), run, n);
            && i < n && TakenAt(cs, NewNet(homes, clients), run, i, ContextOf(net.clients[b]),
                net.clients[b].accepting[k])
  {
    var start := NewNet(homes, clients);
    assert run[..0] == [];
    var net0, a := NetAfter(cs, start, run, n - 1), run[n - 1];
    NetAfterStep(cs, start, run, n - 1);
    StepKeepsSizes(cs, net0, a);
    SoundAfter(cs, homes, clients, run, n - 1);
    FinishedStep(cs, net0, a, b, k);
    var rec := net0.clients[b].accepting[k];
    if FinishedAt(net0, rec) { i := FinishedWasTaken(cs, homes, clients, run, n - 1, b, k); } else { i := n - 1; }
  }

  predicate FinishedAt(net: Net, rec: Accepting) {
    && rec.home < |net.homes| && rec.task < |net.homes[rec.home].tasks|
    && net.homes[rec.home].tasks[rec.task] == Finished(true)
  }

  /** Where the future of a record has finished, it had finished before, or its poll is this step. */
  lemma FinishedStep(cs: Scheme, net: Net, a: NetAction, b: nat, k: nat)
    requires NetSound(cs, net) && b < |net.clients| == |NetStep(cs, net, a).clients|
    requires k < |NetStep(cs, net, a).clients[b].accepting|
    requires FinishedAt(NetStep(cs, net, a), NetStep(cs, net, a).clients[b].accepting[k])
    ensures ClientGrows(net.clients[b], NetStep(cs, net, a).clients[b]) && k < |net.clients[b].accepting|
    ensures var rec, me := net.clients[b].accepting[k], ContextOf(net.clients[b]);
            FinishedAt(net, rec) || TakenNow(cs, net, a, me, rec)
  {
    ClientsGrow(cs, net, a, b);
    if k >= |net.clients[b].accepting| {
      NewRecord(cs, net, a, b, k);
      assert false;
    } else {
      var rec := net.clients[b].accepting[k];
      assert AcceptingSound(cs, net.homes, net.clients[b]);
      assert ResponseSoundAt(cs, net.homes[rec.home].tasks, ContextOf(net.clients[b]), rec);
      if !FinishedAt(net, rec) { PolledNow(cs, net, a, rec); }
    }
  }

  /** The step polls the response of the record, and its home takes it. */
  predicate TakenNow(cs: Scheme, net: Net, a: NetAction, me: Context, rec: Accepting) {
    && a == AtHome(rec.home, Poll(rec.task)) && rec.home < |net.homes|
    && var s := net.homes[rec.home];
    && rec.task < |s.tasks| && s.tasks[rec.task].ResponseTask?
    && s.tasks[rec.task].ctx == me && s.tasks[rec.task].relation == rec.proof
    && PeerId(rec.proof, me.peerId) == Some(s.tasks[rec.task].to)
    && PollStep(cs, s, rec.task).tasks[rec.task] == Finished(true)
  }

  /** Only its own poll finishes a future. */
  lemma PolledNow(cs: Scheme, net: Net, a: NetAction, rec: Accepting)
    requires rec.home < |net.homes| && rec.task < |net.homes[rec.home].tasks|
    requires net.homes[rec.home].tasks[rec.task].ResponseTask? || net.homes[rec.home].tasks[rec.task] == Finished(false)
    requires rec.task < |NetStep(cs, net, a).homes[rec.home].tasks|
    requires NetStep(cs, net, a).homes[rec.home].tasks[rec.task] == Finished(true)
    ensures a == AtHome(rec.home, Poll(rec.task)) && net.homes[rec.home].tasks[rec.task].ResponseTask?
    ensures PollStep(cs, net.homes[rec.home], rec.task).tasks[rec.task] == Finished(true)
  {
    HomeMoves(cs, net, a, rec.home);
    var act := ActionAt(cs, net, a, rec.home);
    if act.Some? {
      FutureStep(cs, net.homes[rec.home], act.value, rec.task);
      PollTasks(cs, net.homes[rec.home], rec.task);
    }
  }

  /** An acceptance that has returned is stored by the acceptor, and its response was taken. */
  lemma {:induction false} DoneIsStored(cs: Scheme, start: Net, run: seq<NetAction>, n: nat, b: nat, k: nat)
    requires n <= |run| && forall c :: 0 <= c < |start.clients| ==> start.clients[c].accepting == []
    requires var net := NetAfter(cs, start, run, n);
             b < |net.clients| && k < |net.clients[b].accepting| && net.clients[b].accepting[k].done
    ensures var net := NetAfter(cs, start, run, n);
            var rec := net.clients[b].accepting[k];
            && rec.proof in net.clients[b].relations && rec.home < |net.homes|
            && rec.task < |net.homes[rec.home].tasks| && net.homes[rec.home].tasks[rec.task] == Finished(true)
  {
    var net := NetAfter(cs, start, run, n);
    SizesStay(cs, start, run, n);
    assert run[..0] == [];
    var net0, a := NetAfter(cs, start, run, n - 1), run[n - 1];
    SizesStay(cs, start, run, n - 1);
    NetAfterStep(cs, start, run, n - 1);
    ClientsGrow(cs, net0, a, b);
    if k >= |net0.clients[b].accepting| {
      NewRecord(cs, net0, a, b, k);
      assert false;
    }
    if net0.clients[b].accepting[k].done {
      DoneIsStored(cs, start, run, n - 1, b, k);
      FinishedStays(cs, net0, a, net.clients[b].accepting[k].home, net.clients[b].accepting[k].task);
    } else {
      JustDone(cs, net0, a, b, k);
    }
  }

  lemma FinishedStays(cs: Scheme, net: Net, a: NetAction, h: nat, t: nat)
    requires h < |net.homes| && t < |net.homes[h].tasks| && net.homes[h].tasks[t].Finished?
    ensures var net' := NetStep(cs, net, a);
            h < |net'.homes| && t < |net'.homes[h].tasks| && net'.homes[h].tasks[t] == net.homes[h].tasks[t]
  {
    HomeMoves(cs, net, a, h);
    var act := ActionAt(cs, net, a, h);
    if act.Some? {
      FutureStep(cs, net.homes[h], act.value, t);
      PollTasks(cs, net.homes[h], t);
    }
  }

  lemma JustDone(cs: Scheme, net: Net, a: NetAction, b: nat, k: nat)
    requires b < |net.clients| && k < |net.clients[b].accepting| && !net.clients[b].accepting[k].done
    requires k < |NetStep(cs, net, a).clients[b].accepting| && NetStep(cs, net, a).clients[b].accepting[k].done
    ensures var net' := NetStep(cs, net, a);
            var rec := net'.clients[b].accepting[k];
            && rec.proof in net'.clients[b].relations && rec.home < |net'.homes|
            && rec.task < |net'.homes[rec.home].tasks| && net'.homes[rec.home].tasks[rec.task] == Finished(true)
  {
    assert a == Accepted(b, k);
  }

  // ------------------------------------------------------------------ what the poll pushed

  /** The response went into a session of the addressee, and nowhere else. */
  ghost predicate Pushed(s: Server, s': Server, to: ProfileId, p: Proof) {
    exists j :: 0 <= j < |s.objects| && s.objects[j].ctx.peerId == to && PushedTo(s, s', j, p)
  }

  predicate PushedTo(s: Server, s': Server, j: nat, p: Proof) {
    j < |s.objects| &&
    s'.objects == s.objects[j := s.objects[j].(events := Sinks.PushTo(s.objects[j].events, PairingResponse(p)))]
  }

  /** A response that its home takes is pushed exactly when the addressee has a live session at the
      moment of the poll. */
  lemma PushedIffLive(cs: Scheme, s: Server, t: nat)
    requires Invariant(cs, s) && t < |s.tasks| && s.tasks[t].ResponseTask?
    requires PollStep(cs, s, t).tasks[t] == Finished(true)
    ensures var s', to, p := PollStep(cs, s, t), s.tasks[t].to, s.tasks[t].relation;
            && (Pushed(s, s', to, p) <==> LiveSession(s, to).Some?)
            && (match LiveSession(s, to)
                case None => s'.objects == s.objects
                case Some(j) => s.objects[j].ctx.peerId == to && PushedTo(s, s', j, p))
  {
    var s', to, p := PollStep(cs, s, t), s.tasks[t].to, s.tasks[t].relation;
    PollTasks(cs, s, t);
    assert s' == PushEvent(Finish(s, t, true), to, PairingResponse(p));
    if Pushed(s, s', to, p) {
      var j :| 0 <= j < |s.objects| && s.objects[j].ctx.peerId == to && PushedTo(s, s', j, p);
      Sinks.StepRecordsCall(s.objects[j].events, Sinks.Calls(Sinks.Push(PairingResponse(p))));
      assert s'.objects[j].events.calls != s.objects[j].events.calls;
    }
  }

  /** What was pushed on a session's event sink stays on its record. */
  predicate EventsExtend(s: Server, s': Server, j: nat) {
    j < |s.objects| && j < |s'.objects| && s'.objects[j].ctx == s.objects[j].ctx
    && s.objects[j].events.calls <= s'.objects[j].events.calls
  }

  lemma PushExtends(s: Server, to: ProfileId, event: Event, j: nat)
    requires j < |s.objects|
    ensures EventsExtend(s, PushEvent(s, to, event), j)
  {
    Sinks.StepRecordsCall(s.objects[j].events, Sinks.Calls(Sinks.Push(event)));
  }

  lemma PollExtends(cs: Scheme, s: Server, i: nat, j: nat)
    requires j < |s.objects| && i < |s.tasks|
    ensures EventsExtend(s, PollStep(cs, s, i), j)
  {
    var f := Finish(s, i, true);
    match s.tasks[i]
    case RequestTask(half, hosted) => PushExtends(f, half.peerId, PairingRequest(half), j);
    case ResponseTask(ctx, relation, to, stored) => PushExtends(f, to, PairingResponse(relation), j);
    case CallTask(c, stored) => if c < |s.calls| { assert EventsExtend(s, PushCall(f, c), j); }
    case _ =>
  }

  lemma StepExtends(cs: Scheme, s: Server, a: Action, j: nat)
    requires j < |s.objects|
    ensures EventsExtend(s, Step(cs, s, a), j)
  {
    var events := s.objects[j].events;
    match a
    case Poll(i) => if i < |s.tasks| { PollExtends(cs, s, i, j); }
    case OnSession(i, what) => SessionExtends(s, i, what, j);
    case EventChannel(i, c, ca) => Sinks.StepRecordsCall(events, Sinks.Chan(c, ca));
    case Ask(ctx, request) => assert Step(cs, s, a).objects == s.objects;
    case AppChannel(i, app, c, ca) => AppChannelTouchesNoEvents(cs, s, a, j);
    case OnCall(c, step) => CallTouchesNoSession(s, c, step);
  }

  lemma SessionExtends(s: Server, i: nat, what: SessionRequest, j: nat)
    requires j < |s.objects|
    ensures EventsExtend(s, SessionStep(s, i, what), j)
  {
    Sinks.StepRecordsCall(s.objects[j].events, Sinks.Calls(Sinks.Subscribe));
  }

  lemma AppChannelTouchesNoEvents(cs: Scheme, s: Server, a: Action, j: nat)
    requires a.AppChannel?
    ensures |Step(cs, s, a).objects| == |s.objects|
    ensures j < |s.objects| ==>
              Step(cs, s, a).objects[j].events == s.objects[j].events
                  && Step(cs, s, a).objects[j].ctx == s.objects[j].ctx
  {
  }

  lemma CallTouchesNoSession(s: Server, c: nat, step: CallAction)
    ensures CallStep(s, c, step).objects == s.objects
  {
  }

  lemma NetStepExtends(cs: Scheme, net: Net, a: NetAction, h: nat, j: nat)
    requires h < |net.homes| && j < |net.homes[h].objects|
    ensures h < |NetStep(cs, net, a).homes| && EventsExtend(net.homes[h], NetStep(cs, net, a).homes[h], j)
  {
    HomeMoves(cs, net, a, h);
    var act := ActionAt(cs, net, a, h);
    if act.Some? { StepExtends(cs, net.homes[h], act.value, j); }
  }

  lemma {:induction false} RunExtends(cs: Scheme, net: Net, later: seq<NetAction>, h: nat, j: nat)
    requires h < |net.homes| && j < |net.homes[h].objects|
    ensures h < |NetRun(cs, net, later).homes| && EventsExtend(net.homes[h], NetRun(cs, net, later).homes[h], j)
  {
    if later != [] {
      var net', a := NetRun(cs, net, later[..|later| - 1]), later[|later| - 1];
      RunExtends(cs, net, later[..|later| - 1], h, j);
      NetStepExtends(cs, net', a, h, j);
      ExtendsFurther(net.homes[h], net'.homes[h], NetStep(cs, net', a).homes[h], j);
    }
  }

  lemma ExtendsFurther(s: Server, s': Server, s'': Server, j: nat)
    requires EventsExtend(s, s', j) && EventsExtend(s', s'', j)
    ensures EventsExtend(s, s'', j)
  {
  }

  // ------------------------------------------------------------------ what the handlers took

  /** Some client of that id holds the relation. */
  ghost predicate HeldBy(net: Net, id: ProfileId, p: Proof) {
    exists c :: 0 <= c < |net.clients| && net.clients[c].signer.id == id && p in net.clients[c].relations
  }

  function ReceivedOn(s: Server, j: nat, ch: nat): seq<Sinks.Message<Event>> {
    if j < |s.objects| && ch < |s.objects[j].events.chans| then s.objects[j].events.chans[ch].received else []
  }

  /** Every response that came off a stream of a session is held by a client of its owner's id. */
  ghost predicate TakenIsHeld(net: Net) {
    forall h, j: nat, ch: nat, x | 0 <= h < |net.homes| && 0 <= x < |ReceivedOn(net.homes[h], j, ch)| ::
      forall p :: p in Stored(ReceivedOn(net.homes[h], j, ch)[x]) ==> HeldBy(net, net.homes[h].objects[j].ctx.peerId, p)
  }

  predicate Receives(a: Action) {
    a.EventChannel? && a.action.Receive?
  }

  /** Event streams are read by the handlers of the clients only. */
  predicate HandlersRead(run: seq<NetAction>) {
    forall i :: 0 <= i < |run| && run[i].AtHome? ==> !Receives(run[i].action)
  }

  function ReceivedIn(sink: Sinks.Sink<Event>, ch: nat): seq<Sinks.Message<Event>> {
    if ch < |sink.chans| then sink.chans[ch].received else []
  }

  lemma SinkReceivesNothing(sink: Sinks.Sink<Event>, a: Sinks.Action<Event>, ch: nat)
    requires a.Chan? ==> !a.action.Receive?
    ensures ReceivedIn(Sinks.Step(sink, a), ch) == ReceivedIn(sink, ch)
  {
  }

  lemma PushReceivesNothing(s: Server, to: ProfileId, event: Event, j: nat, ch: nat)
    ensures ReceivedOn(PushEvent(s, to, event), j, ch) == ReceivedOn(s, j, ch)
  {
    if j < |s.objects| { SinkReceivesNothing(s.objects[j].events, Sinks.Calls(Sinks.Push(event)), ch); }
  }

  lemma CallReceivesNothing(s: Server, c: nat, j: nat, ch: nat)
    requires c < |s.calls|
    ensures ReceivedOn(PushCall(s, c), j, ch) == ReceivedOn(s, j, ch)
  {
  }

  lemma PollReceivesNothing(cs: Scheme, s: Server, i: nat, j: nat, ch: nat)
    requires i < |s.tasks|
    ensures ReceivedOn(PollStep(cs, s, i), j, ch) == ReceivedOn(s, j, ch)
  {
    var f := Finish(s, i, true);
    match s.tasks[i]
    case RequestTask(half, hosted) => PushReceivesNothing(f, half.peerId, PairingRequest(half), j, ch);
    case ResponseTask(ctx, relation, to, stored) => PushReceivesNothing(f, to, PairingResponse(relation), j, ch);
    case CallTask(c, stored) => if c < |s.calls| { CallReceivesNothing(f, c, j, ch); }
    case _ =>
  }

  lemma StepReceivesNothing(cs: Scheme, s: Server, a: Action, j: nat, ch: nat)
    requires !Receives(a)
    ensures ReceivedOn(Step(cs, s, a), j, ch) == ReceivedOn(s, j, ch)
  {
    match a
    case Poll(i) => if i < |s.tasks| { PollReceivesNothing(cs, s, i, j, ch); }
    case OnSession(i, what) => SessionReceivesNothing(s, i, what, j, ch);
    case EventChannel(i, c, ca) =>
      if j < |s.objects| { SinkReceivesNothing(s.objects[j].events, Sinks.Chan(c, ca), ch); }
    case Ask(ctx, request) => assert Step(cs, s, a).objects == s.objects;
    case AppChannel(i, app, c, ca) => AppChannelTouchesNoEvents(cs, s, a, j);
    case OnCall(c, step) => CallTouchesNoSession(s, c, step);
  }

  lemma SessionReceivesNothing(s: Server, i: nat, what: SessionRequest, j: nat, ch: nat)
    ensures ReceivedOn(SessionStep(s, i, what), j, ch) == ReceivedOn(s, j, ch)
  {
    if j < |s.objects| { SinkReceivesNothing(s.objects[j].events, Sinks.Calls(Sinks.Subscribe), ch); }
  }

  lemma HolderStays(cs: Scheme, net: Net, a: NetAction, id: ProfileId, p: Proof)
    requires HeldBy(net, id, p)
    ensures HeldBy(NetStep(cs, net, a), id, p)
  {
    var c :| 0 <= c < |net.clients| && net.clients[c].signer.id == id && p in net.clients[c].relations;
    ClientsGrow(cs, net, a, c);
    assert p in NetStep(cs, net, a).clients[c].relations;
  }

  /** What one receive adds to a stream. */
  lemma ReceiveAdds(cs: Scheme, s: Server, j: nat, ch: nat, j': nat, ch': nat)
    requires j < |s.objects| && ch < |s.objects[j].events.chans| && s.objects[j].events.chans[ch].queue != []
    ensures ReceivedOn(Step(cs, s, EventChannel(j, ch, Sinks.Receive)), j', ch') ==
            ReceivedOn(s, j', ch') + if j' == j && ch' == ch then [s.objects[j].events.chans[ch].queue[0]] else []
  {
  }

  lemma HandlerHolds(cs: Scheme, net: Net, c: nat, h: nat, j: nat, ch: nat)
    requires c < |net.clients| && h < |net.homes| && CanHandle(net, c, h, j, ch)
    ensures forall p :: p in Stored(net.homes[h].objects[j].events.chans[ch].queue[0]) ==>
              HeldBy(NetStep(cs, net, Handle(c, h, j, ch)), net.clients[c].signer.id, p)
  {
    var net' := NetStep(cs, net, Handle(c, h, j, ch));
    assert net'.clients[c].signer == net.clients[c].signer;
    forall p | p in Stored(net.homes[h].objects[j].events.chans[ch].queue[0])
      ensures HeldBy(net', net.clients[c].signer.id, p)
    {
      assert p in net'.clients[c].relations;
    }
  }

  /** Whatever is on a stream after a step was there before, or was handled just now. */
  lemma StepTakesIsHeld(cs: Scheme, net: Net, a: NetAction, h: nat, j: nat, ch: nat, x: nat, p: Proof)
    requires TakenIsHeld(net) && (a.AtHome? ==> !Receives(a.action)) && h < |net.homes|
    requires h < |NetStep(cs, net, a).homes| && x < |ReceivedOn(NetStep(cs, net, a).homes[h], j, ch)|
    requires p in Stored(ReceivedOn(NetStep(cs, net, a).homes[h], j, ch)[x])
    ensures HeldBy(NetStep(cs, net, a), NetStep(cs, net, a).homes[h].objects[j].ctx.peerId, p)
  {
    var act := ActionAt(cs, net, a, h);
    HomeMoves(cs, net, a, h);
    var s, s' := net.homes[h], NetStep(cs, net, a).homes[h];
    if act.Some? && Receives(act.value) {
      ReceiveAdds(cs, s, a.session, a.chan, j, ch);
      HandlerHolds(cs, net, a.client, h, a.session, a.chan);
    } else if act.Some? {
      StepReceivesNothing(cs, s, act.value, j, ch);
    }
    if x < |ReceivedOn(s, j, ch)| {
      if act.Some? { StepExtends(cs, s, act.value, j); }
      assert ReceivedOn(s, j, ch)[x] == ReceivedOn(s', j, ch)[x];
      HolderStays(cs, net, a, s.objects[j].ctx.peerId, p);
    }
  }

  lemma {:induction false} EveryTakenIsHeld(cs: Scheme, homes: seq<Signer>, clients: seq<Signer>, run: seq<NetAction>)
    requires HandlersRead(run)
    ensures TakenIsHeld(NetRun(cs, NewNet(homes, clients), run))
  {
    if run != [] {
      var before, a := run[..|run| - 1], run[|run| - 1];
      EveryTakenIsHeld(cs, homes, clients, before);
      var net, net' := NetRun(cs, NewNet(homes, clients), before), NetRun(cs, NewNet(homes, clients), run);
      assert run[..|before|] == before && run[..|run|] == run;
      SizesStay(cs, NewNet(homes, clients), run, |before|);
      SizesStay(cs, NewNet(homes, clients), run, |run|);
      forall h, j: nat, ch: nat, x | 0 <= h < |net'.homes| && 0 <= x < |ReceivedOn(net'.homes[h], j, ch)|
        ensures forall p :: p in Stored(ReceivedOn(net'.homes[h], j, ch)[x]) ==>
                  HeldBy(net', net'.homes[h].objects[j].ctx.peerId, p)
      {
        forall p | p in Stored(ReceivedOn(net'.homes[h], j, ch)[x])
          ensures HeldBy(net', net'.homes[h].objects[j].ctx.peerId, p)
        {
          StepTakesIsHeld(cs, net, a, h, j, ch, x, p);
        }
      }
    }
  }

  // ------------------------------------------------------------------ exactly what is held

  /** The client has completed an acceptance of the proof itself. */
  predicate OwnAcceptance(c: Client, p: Proof) {
    exists k :: 0 <= k < |c.accepting| && c.accepting[k].done && c.accepting[k].proof == p
  }

  /** Message `x` that came off stream `ch` of session `j` at home `h`, a session of `id`, carries the
      proof. */
  predicate DeliveredAt(net: Net, id: ProfileId, p: Proof, h: nat, j: nat, ch: nat, x: nat) {
    && h < |net.homes| && x < |ReceivedOn(net.homes[h], j, ch)| && net.homes[h].objects[j].ctx.peerId == id
    && p in Stored(ReceivedOn(net.homes[h], j, ch)[x])
  }

  ghost predicate DeliveredTo(net: Net, id: ProfileId, p: Proof) {
    exists h: nat, j: nat, ch: nat, x: nat :: DeliveredAt(net, id, p, h, j, ch, x)
  }

  ghost predicate Explained(net: Net, c: Client, p: Proof) {
    OwnAcceptance(c, p) || DeliveredTo(net, c.signer.id, p)
  }

  ghost predicate AllExplained(net: Net) {
    forall c, p :: 0 <= c < |net.clients| && p in net.clients[c].relations ==> Explained(net, net.clients[c], p)
  }

  lemma ReceivedGrows(cs: Scheme, s: Server, a: Action, j: nat, ch: nat)
    ensures ReceivedOn(s, j, ch) <= ReceivedOn(Step(cs, s, a), j, ch)
  {
    if !Receives(a) {
      StepReceivesNothing(cs, s, a, j, ch);
    } else if a.session < |s.objects| && a.chan < |s.objects[a.session].events.chans|
              && s.objects[a.session].events.chans[a.chan].queue != [] {
      ReceiveAdds(cs, s, a.session, a.chan, j, ch);
    } else {
      NothingToReceive(cs, s, a.session, a.chan, j, ch);
    }
  }

  lemma NothingToReceive(cs: Scheme, s: Server, j: nat, ch: nat, j': nat, ch': nat)
    requires j < |s.objects| && ch < |s.objects[j].events.chans| ==> s.objects[j].events.chans[ch].queue == []
    ensures ReceivedOn(Step(cs, s, EventChannel(j, ch, Sinks.Receive)), j', ch') == ReceivedOn(s, j', ch')
  {
  }

  lemma DeliveryStays(cs: Scheme, net: Net, a: NetAction, id: ProfileId, p: Proof)
    requires DeliveredTo(net, id, p)
    ensures DeliveredTo(NetStep(cs, net, a), id, p)
  {
    var h: nat, j: nat, ch: nat, x: nat :| DeliveredAt(net, id, p, h, j, ch, x);
    HomeMoves(cs, net, a, h);
    var act := ActionAt(cs, net, a, h);
    if act.Some? {
      ReceivedGrows(cs, net.homes[h], act.value, j, ch);
      StepExtends(cs, net.homes[h], act.value, j);
    }
    assert DeliveredAt(NetStep(cs, net, a), id, p, h, j, ch, x);
  }

  /** A relation is new only by the return of the holder's own acceptance, or off a stream. */
  lemma NewRelation(cs: Scheme, net: Net, a: NetAction, c: nat, p: Proof)
    requires c < |net.clients| && c < |NetStep(cs, net, a).clients|
    requires p in NetStep(cs, net, a).clients[c].relations && p !in net.clients[c].relations
    ensures || (a.Accepted? && OwnAcceptance(NetStep(cs, net, a).clients[c], p))
            || (a.Handle? && a.client == c && a.home < |net.homes| && CanHandle(net, c, a.home, a.session, a.chan)
                && p in Stored(net.homes[a.home].objects[a.session].events.chans[a.chan].queue[0]))
  {
    match a
    case AtHome(g, action) =>
    case Initiate(_, relationType, peer, g) =>
    case Accept(_, half, g) =>
    case Accepted(b, k) => assert NetStep(cs, net, a).clients[c].accepting[k].proof == p;
    case Handle(_, g, j, ch) =>
  }

  lemma HandledIsDelivered(cs: Scheme, net: Net, c: nat, h: nat, j: nat, ch: nat, p: Proof)
    requires c < |net.clients| && h < |net.homes| && CanHandle(net, c, h, j, ch)
    requires p in Stored(net.homes[h].objects[j].events.chans[ch].queue[0])
    ensures DeliveredTo(NetStep(cs, net, Handle(c, h, j, ch)), net.clients[c].signer.id, p)
  {
    var a := Handle(c, h, j, ch);
    HomeMoves(cs, net, a, h);
    ReceiveAdds(cs, net.homes[h], j, ch, j, ch);
    StepExtends(cs, net.homes[h], EventChannel(j, ch, Sinks.Receive), j);
    var x := |ReceivedOn(net.homes[h], j, ch)|;
    assert DeliveredAt(NetStep(cs, net, a), net.clients[c].signer.id, p, h, j, ch, x);
  }

  lemma StepExplains(cs: Scheme, net: Net, a: NetAction, c: nat, p: Proof)
    requires AllExplained(net) && c < |net.clients| && c < |NetStep(cs, net, a).clients|
    requires p in NetStep(cs, net, a).clients[c].relations
    ensures Explained(NetStep(cs, net, a), NetStep(cs, net, a).clients[c], p)
  {
    ClientsGrow(cs, net, a, c);
    if p !in net.clients[c].relations {
      NewRelation(cs, net, a, c, p);
      if a.Handle? { HandledIsDelivered(cs, net, c, a.home, a.session, a.chan, p); }
    } else if OwnAcceptance(net.clients[c], p) {
      var k :| 0 <= k < |net.clients[c].accepting| && net.clients[c].accepting[k].done
                 && net.clients[c].accepting[k].proof == p;
      assert NetStep(cs, net, a).clients[c].accepting[k].done;
    } else {
      DeliveryStays(cs, net, a, net.clients[c].signer.id, p);
    }
  }

  /** In every run, whatever the scheme, the clients and the steps, each relation a client holds comes
      from an acceptance it has completed or from a stream of a session of its own id. */
  lemma {:induction false} EveryRelationExplained(cs: Scheme, homes: seq<Signer>, clients: seq<Signer>,
                                                  run: seq<NetAction>)
    ensures AllExplained(NetRun(cs, NewNet(homes, clients), run))
  {
    if run != [] {
      var before, a := run[..|run| - 1], run[|run| - 1];
      EveryRelationExplained(cs, homes, clients, before);
      var net := NetRun(cs, NewNet(homes, clients), before);
      StepKeepsSizes(cs, net, a);
      forall c, p | 0 <= c < |net.clients| && p in NetStep(cs, net, a).clients[c].relations
        ensures Explained(NetStep(cs, net, a), NetStep(cs, net, a).clients[c], p)
      {
        StepExplains(cs, net, a, c, p);
      }
    }
  }

  /** Some client of that id has completed an acceptance of the proof. */
  ghost predicate AcceptedBy(net: Net, id: ProfileId, p: Proof) {
    exists c :: 0 <= c < |net.clients| && net.clients[c].signer.id == id && OwnAcceptance(net.clients[c], p)
  }

  lemma AcceptedIsHeld(cs: Scheme, homes: seq<Signer>, clients: seq<Signer>, run: seq<NetAction>,
                       id: ProfileId, p: Proof)
    requires AcceptedBy(NetRun(cs, NewNet(homes, clients), run), id, p)
    ensures HeldBy(NetRun(cs, NewNet(homes, clients), run), id, p)
  {
    var net := NetRun(cs, NewNet(homes, clients), run);
    var c :| 0 <= c < |net.clients| && net.clients[c].signer.id == id && OwnAcceptance(net.clients[c], p);
    var k :| 0 <= k < |net.clients[c].accepting| && net.clients[c].accepting[k].done
               && net.clients[c].accepting[k].proof == p;
    assert run[..|run|] == run;
    DoneIsStored(cs, NewNet(homes, clients), run, |run|, c, k);
  }

  /** Who holds what, exactly: when event streams are read by the handlers of the clients only, a
      relation is held under an id if and only if a client of that id has completed an acceptance of
      it or a stream of a session of that id has delivered it. */
  lemma HeldExactly(cs: Scheme, homes: seq<Signer>, clients: seq<Signer>, run: seq<NetAction>, id: ProfileId, p: Proof)
    requires HandlersRead(run)
    ensures var net := NetRun(cs, NewNet(homes, clients), run);
            HeldBy(net, id, p) <==> AcceptedBy(net, id, p) || DeliveredTo(net, id, p)
  {
    var net := NetRun(cs, NewNet(homes, clients), run);
    EveryRelationExplained(cs, homes, clients, run);
    EveryTakenIsHeld(cs, homes, clients, run);
    if HeldBy(net, id, p) {
      var c :| 0 <= c < |net.clients| && net.clients[c].signer.id == id && p in net.clients[c].relations;
      assert Explained(net, net.clients[c], p);
    }
    if AcceptedBy(net, id, p) { AcceptedIsHeld(cs, homes, clients, run, id, p); }
    if DeliveredTo(net, id, p) {
      var h: nat, j: nat, ch: nat, x: nat :| DeliveredAt(net, id, p, h, j, ch, x);
    }
  }

  // ------------------------------------------------------------------ the fate of an acceptance

  /** The message has come off a stream of the sink. */
  predicate TakenFrom(sink: Sinks.Sink<Event>, m: Sinks.Message<Event>) {
    exists ch :: 0 <= ch < |sink.chans| && m in sink.chans[ch].received
  }

  /** What a sink holds is either taken or not, never both. */
  lemma TakenOrNot(sink: Sinks.Sink<Event>, pos: nat, event: Event)
    requires Sinks.Invariant(sink) && Sinks.Item(pos, event) in Sinks.Contents(sink)
    ensures Untaken(sink, Sinks.Item(pos, event)) <==> !TakenFrom(sink, Sinks.Item(pos, event))
  {
    var m := Sinks.Item(pos, event);
    if !Untaken(sink, m) { var ch := UntakenOrReceived(sink, m); }
    if TakenFrom(sink, m) && Untaken(sink, m) {
      var c :| 0 <= c < |sink.chans| && m in sink.chans[c].received;
      var d :| 0 <= d < |sink.chans| && OnTheWay(sink.chans[d], m);
      NotBoth(sink, pos, event, c, d);
    }
  }

  lemma NotBoth(sink: Sinks.Sink<Event>, pos: nat, event: Event, c: nat, d: nat)
    requires Sinks.Invariant(sink) && c < |sink.chans| && d < |sink.chans|
    requires Sinks.Item(pos, event) in sink.chans[c].received
    ensures !OnTheWay(sink.chans[d], Sinks.Item(pos, event))
  {
    var m := Sinks.Item(pos, event);
    Sinks.LedgerCounts(sink, c, pos, event);
    Sinks.LedgerCounts(sink, d, pos, event);
    InLedger(sink.chans[c], m);
    InLedger(sink.chans[d], m);
  }

  lemma InLedger(ch: Sinks.Channel<Event>, m: Sinks.Message<Event>)
    ensures m in ch.received ==> Sinks.Ledger(ch)[m] >= 1
    ensures OnTheWay(ch, m) ==> Sinks.Ledger(ch)[m] >= 1
    ensures m in ch.received && OnTheWay(ch, m) ==> Sinks.Ledger(ch)[m] >= 2
  {
    assert m in ch.received ==> multiset(ch.received)[m] >= 1;
    assert OnTheWay(ch, m) ==>
      multiset(ch.flush)[m] + multiset(ch.pending)[m] + multiset(ch.queue)[m] + multiset(ch.lost)[m] >= 1;
  }

  /** The message is in the channel, but not received. */
  predicate OnTheWay(ch: Sinks.Channel<Event>, m: Sinks.Message<Event>) {
    m in ch.flush || m in ch.pending || m in ch.queue || m in ch.lost
  }

  /** The message is buffered, on its way, in a stream, or lost with a stream. */
  ghost predicate Untaken(sink: Sinks.Sink<Event>, m: Sinks.Message<Event>) {
    || (sink.source.Buffer? && m in sink.source.items)
    || exists ch :: 0 <= ch < |sink.chans| && OnTheWay(sink.chans[ch], m)
  }

  /** A response that was pushed as number `pos` into session `j` of the addressee is in one place of
      that session, and either untaken or taken, and then delivered. If streams are read by handlers
      only, the addressee holds the proof exactly when a stream of it has delivered the proof or it
      has completed an acceptance of the proof itself. */
  ghost predicate Arriving(net: Net, h: nat, j: nat, pos: nat, to: ProfileId, p: Proof, handlers: bool) {
    && h < |net.homes| && j < |net.homes[h].objects| && net.homes[h].objects[j].ctx.peerId == to
    && var sink, m := net.homes[h].objects[j].events, Sinks.Item(pos, PairingResponse(p));
    && Sinks.Contents(sink)[m] == 1
    && (Untaken(sink, m) <==> !TakenFrom(sink, m))
    && (TakenFrom(sink, m) ==> DeliveredTo(net, to, p))
    && (handlers ==> (HeldBy(net, to, p) <==> AcceptedBy(net, to, p) || DeliveredTo(net, to, p)))
  }

  lemma {:induction false} InSomeLedger<T>(chans: seq<Sinks.Channel<T>>, m: Sinks.Message<T>) returns (c: nat)
    requires m in Sinks.Ledgers(chans)
    ensures c < |chans| && m in Sinks.Ledger(chans[c])
  {
    var last := |chans| - 1;
    if m in Sinks.Ledger(chans[last]) { c := last; } else { c := InSomeLedger(chans[..last], m); }
  }

  lemma UntakenOrReceived(sink: Sinks.Sink<Event>, m: Sinks.Message<Event>) returns (ch: nat)
    requires m in Sinks.Contents(sink) && !Untaken(sink, m)
    ensures ch < |sink.chans| && m in sink.chans[ch].received
  {
    ch := InSomeLedger(sink.chans, m);
  }

  lemma TakenIsDelivered(net: Net, h: nat, j: nat, m: Sinks.Message<Event>, p: Proof)
    requires h < |net.homes| && j < |net.homes[h].objects| && p in Stored(m)
    ensures TakenFrom(net.homes[h].objects[j].events, m) ==> DeliveredTo(net, net.homes[h].objects[j].ctx.peerId, p)
  {
    var sink := net.homes[h].objects[j].events;
    if TakenFrom(sink, m) {
      var ch :| 0 <= ch < |sink.chans| && m in sink.chans[ch].received;
      var x: nat :| x < |ReceivedOn(net.homes[h], j, ch)| && ReceivedOn(net.homes[h], j, ch)[x] == m;
      assert DeliveredAt(net, net.homes[h].objects[j].ctx.peerId, p, h, j, ch, x);
    }
  }

  lemma ArrivesAsPushed(cs: Scheme, net: Net, h: nat, j: nat, pos: nat, to: ProfileId, p: Proof, handlers: bool)
    requires handlers ==> (HeldBy(net, to, p) <==> AcceptedBy(net, to, p) || DeliveredTo(net, to, p))
    requires NetSound(cs, net) && h < |net.homes| && j < |net.homes[h].objects|
    requires net.homes[h].objects[j].ctx.peerId == to && pos < |net.homes[h].objects[j].events.calls|
    requires net.homes[h].objects[j].events.calls[pos] == Sinks.Push(PairingResponse(p))
    ensures Arriving(net, h, j, pos, to, p, handlers)
  {
    EventsConserve(cs, net, h, j);
    PlaceInSink(net.homes[h].objects[j].events, pos, PairingResponse(p));
    TakenIsDelivered(net, h, j, Sinks.Item(pos, PairingResponse(p)), p);
  }

  lemma PlaceInSink(sink: Sinks.Sink<Event>, pos: nat, event: Event)
    requires Sinks.Invariant(sink) && pos < |sink.calls| && sink.calls[pos] == Sinks.Push(event)
    ensures Sinks.Contents(sink)[Sinks.Item(pos, event)] == 1
    ensures Untaken(sink, Sinks.Item(pos, event)) <==> !TakenFrom(sink, Sinks.Item(pos, event))
  {
    Sinks.EachPushHeldOnce(sink, pos, event);
    TakenOrNot(sink, pos, event);
  }

  lemma EventsConserve(cs: Scheme, net: Net, h: nat, j: nat)
    requires NetSound(cs, net) && h < |net.homes| && j < |net.homes[h].objects|
    ensures Sinks.Invariant(net.homes[h].objects[j].events)
  {
    assert Invariant(cs, net.homes[h]) && SessionSound(cs, net.homes[h].objects[j]);
  }

  /** What step `i`, which took the response of the record, did with it, and what has become of it
      by the end of the run. */
  ghost predicate Fate(cs: Scheme, start: Net, run: seq<NetAction>, i: nat, me: Context, rec: Accepting)
    requires TakenAt(cs, start, run, i, me, rec)
  {
    && rec.home < |NetAfter(cs, start, run, i + 1).homes|
    && var s, s' := NetAfter(cs, start, run, i).homes[rec.home], NetAfter(cs, start, run, i + 1).homes[rec.home];
    var to := s.tasks[rec.task].to;
    && (Pushed(s, s', to, rec.proof) <==> LiveSession(s, to).Some?)
    && match LiveSession(s, to)
       case None => s'.objects == s.objects
       case Some(j) =>
         var pos := |s.objects[j].events.calls|;
         Arriving(NetRun(cs, start, run), rec.home, j, pos, to, rec.proof, HandlersRead(run))
  }

  lemma FateOfTaken(cs: Scheme, homes: seq<Signer>, clients: seq<Signer>, run: seq<NetAction>,
                    i: nat, me: Context, rec: Accepting)
    requires cs.CollisionFree() && OwnProofsOnly(homes, run)
    requires forall c :: 0 <= c < |clients| ==> clients[c].Valid(cs)
    requires TakenAt(cs, NewNet(homes, clients), run, i, me, rec)
    ensures Fate(cs, NewNet(homes, clients), run, i, me, rec)
  {
    var start, net := NewNet(homes, clients), NetRun(cs, NewNet(homes, clients), run);
    SoundAfter(cs, homes, clients, run, i);
    NetAfterStep(cs, start, run, i);
    var before := NetAfter(cs, start, run, i);
    var s := before.homes[rec.home];
    assert Invariant(cs, s);
    PushedIffLive(cs, s, rec.task);
    var live, to := LiveSession(s, s.tasks[rec.task].to), s.tasks[rec.task].to;
    if live.Some? {
      if HandlersRead(run) { HeldExactly(cs, homes, clients, run, to, rec.proof); }
      RelationsAlwaysValid(cs, homes, clients, run);
      RunRest(cs, start, run, i + 1);
      PushRemains(cs, before, rec.home, rec.task, live.value, rec.proof, run[i + 1..]);
      var pos := |s.objects[live.value].events.calls|;
      ArrivesAsPushed(cs, net, rec.home, live.value, pos, to, rec.proof, HandlersRead(run));
    }
  }

  /** The fate of every acceptance that has returned. Its acceptor holds the proof, in canonical
      order. There was a step `i` that polled its response. If the initiator had no live session at
      that step, nothing was pushed anywhere; if it had one, the response was pushed into it and is
      ever since in exactly one place of that session. Both parties hold the same proof exactly when
      a handler of the initiator has taken it, or the initiator has accepted it as well. */
  lemma FateOfAcceptance(cs: Scheme, homes: seq<Signer>, clients: seq<Signer>, run: seq<NetAction>, b: nat, k: nat)
    returns (i: nat)
    requires cs.CollisionFree() && OwnProofsOnly(homes, run)
    requires forall c :: 0 <= c < |clients| ==> clients[c].Valid(cs)
    requires var net := NetRun(cs, NewNet(homes, clients), run);
             b < |net.clients| && k < |net.clients[b].accepting| && net.clients[b].accepting[k].done
    ensures var start, net := NewNet(homes, clients), NetRun(cs, NewNet(homes, clients), run);
            var me, rec := ContextOf(net.clients[b]), net.clients[b].accepting[k];
            && rec.proof in net.clients[b].relations && Canonical(rec.proof)
            && TakenAt(cs, start, run, i, me, rec) && Fate(cs, start, run, i, me, rec)
  {
    var start, net := NewNet(homes, clients), NetRun(cs, NewNet(homes, clients), run);
    assert run[..|run|] == run;
    DoneIsStored(cs, start, run, |run|, b, k);
    RelationsAlwaysValid(cs, homes, clients, run);
    assert AcceptingSound(cs, net.homes, net.clients[b]);
    i := FinishedWasTaken(cs, homes, clients, run, |run|, b, k);
    FateOfTaken(cs, homes, clients, run, i, ContextOf(net.clients[b]), net.clients[b].accepting[k]);
  }

  lemma PushRemains(cs: Scheme, net: Net, h: nat, t: nat, j: nat, p: Proof, later: seq<NetAction>)
    requires h < |net.homes| && t < |net.homes[h].tasks| && PushedTo(net.homes[h], PollStep(cs, net.homes[h], t), j, p)
    ensures var s, net' := net.homes[h], NetRun(cs, NetStep(cs, net, AtHome(h, Poll(t))), later);
            && h < |net'.homes| && j < |net'.homes[h].objects|
            && var o := net'.homes[h].objects[j];
            && o.ctx == s.objects[j].ctx && |s.objects[j].events.calls| < |o.events.calls|
            && o.events.calls[|s.objects[j].events.calls|] == Sinks.Push(PairingResponse(p))
  {
    Sinks.StepRecordsCall(net.homes[h].objects[j].events, Sinks.Calls(Sinks.Push(PairingResponse(p))));
    RunExtends(cs, NetStep(cs, net, AtHome(h, Poll(t))), later, h, j);
  }

  lemma RunRest(cs: Scheme, start: Net, run: seq<NetAction>, n: nat)
    requires n <= |run|
    ensures NetRun(cs, start, run) == NetRun(cs, NetAfter(cs, start, run, n), run[n..])
  {
    var first, rest := run[..n], run[n..];
    assert run == first + rest;
    RunConcat(cs, start, first, rest);
  }
}
