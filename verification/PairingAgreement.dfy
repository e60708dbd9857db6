/** Where the relations of a client come from, when every pairing response is sent by
    `accept_relation` of some client of the network. */
module PairingAgreement {
  import opened Bytes
  import opened Prelude
  import opened Relation
  import opened HomeServer
  import opened HomeInvariants
  import opened Pairing
  import Sinks = EventSink

  type Sent = set<(ProfileId, Proof)>

  /** Who accepted what so far. */
  ghost function AllAccepted(clients: seq<Client>): Sent {
    set c, k | 0 <= c < |clients| && 0 <= k < |clients[c].accepting| ::
      (clients[c].signer.id, clients[c].accepting[k].proof)
  }

  /** `p` was sent to `to` by someone who accepted it. */
  ghost predicate SentTo(sent: Sent, p: Proof, to: ProfileId) {
    exists sender :: (sender, p) in sent && PeerId(p, sender) == Some(to)
  }

  // ------------------------------------------------------------------ inside one home

  ghost predicate TasksWithin(tasks: seq<Task>, sent: Sent) {
    forall i :: 0 <= i < |tasks| && tasks[i].ResponseTask? ==> SentTo(sent, tasks[i].relation, tasks[i].to)
  }

  ghost predicate EventsWithin(o: Session, sent: Sent) {
    forall n :: 0 <= n < |o.events.calls| && o.events.calls[n].Push? && o.events.calls[n].value.PairingResponse? ==>
      SentTo(sent, o.events.calls[n].value.relation, o.ctx.peerId)
  }

  ghost predicate ResponsesWithin(s: Server, sent: Sent) {
    && TasksWithin(s.tasks, sent)
    && forall j :: 0 <= j < |s.objects| ==> EventsWithin(s.objects[j], sent)
  }

  /** The calls recorded in a session's event sink grow by a subscription or by `event`. */
  predicate EventsGrowBy(o: Session, o': Session, event: Option<Event>) {
    && o'.ctx == o.ctx
    && (|| o'.events.calls == o.events.calls
        || o'.events.calls == o.events.calls + [Sinks.Subscribe]
        || (event.Some? && o'.events.calls == o.events.calls + [Sinks.Push(event.value)]))
  }

  lemma GrownEventsWithin(o: Session, o': Session, event: Option<Event>, sent: Sent)
    requires EventsWithin(o, sent) && EventsGrowBy(o, o', event)
    requires event.Some? && event.value.PairingResponse? ==> SentTo(sent, event.value.relation, o.ctx.peerId)
    ensures EventsWithin(o', sent)
  {
  }

  lemma QuietStepKeeps(s: Server, s': Server, sent: Sent)
    requires ResponsesWithin(s, sent) && TasksWithin(s'.tasks, sent) && |s.objects| <= |s'.objects|
    requires forall j :: 0 <= j < |s.objects| ==> EventsGrowBy(s.objects[j], s'.objects[j], None)
    requires forall j :: |s.objects| <= j < |s'.objects| ==> s'.objects[j].events.calls == []
    ensures ResponsesWithin(s', sent)
  {
    forall j | 0 <= j < |s'.objects| ensures EventsWithin(s'.objects[j], sent) {
      if j < |s.objects| { GrownEventsWithin(s.objects[j], s'.objects[j], None, sent); }
    }
  }

  lemma PushKeeps(cs: Scheme, s: Server, to: ProfileId, event: Event, sent: Sent)
    requires ResponsesWithin(s, sent) && SessionsLive(s.sessions, s.objects)
    requires event.PairingResponse? ==> SentTo(sent, event.relation, to)
    ensures ResponsesWithin(PushEvent(s, to, event), sent)
  {
    var live := LiveSession(s, to);
    if live.Some? {
      var o, o' := s.objects[live.value], PushEvent(s, to, event).objects[live.value];
      Sinks.StepRecordsCall(o.events, Sinks.Calls(Sinks.Push(event)));
      GrownEventsWithin(o, o', Some(event), sent);
    }
  }

  lemma PollKeepsWithin(cs: Scheme, s: Server, i: nat, sent: Sent)
    requires Invariant(cs, s) && ResponsesWithin(s, sent) && i < |s.tasks|
    ensures ResponsesWithin(PollStep(cs, s, i), sent)
  {
    var f := Finish(s, i, true);
    match s.tasks[i]
    case RequestTask(half, hosted) => PushKeeps(cs, f, half.peerId, PairingRequest(half), sent);
    case ResponseTask(ctx, relation, to, stored) => PushKeeps(cs, f, to, PairingResponse(relation), sent);
    case CallTask(c, stored) => if c < |s.calls| { CallKeepsWithin(f, c, sent); }
    case _ => WriteKeepsWithin(cs, s, i, sent);
  }

  lemma WriteKeepsWithin(cs: Scheme, s: Server, i: nat, sent: Sent)
    requires ResponsesWithin(s, sent) && i < |s.tasks|
    requires s.tasks[i].RegisterTask? || s.tasks[i].UpdateTask? || s.tasks[i].LoginTask? || s.tasks[i].Finished?
    ensures ResponsesWithin(PollStep(cs, s, i), sent)
  {
    QuietStepKeeps(s, PollStep(cs, s, i), sent);
  }

  lemma CallKeepsWithin(s: Server, c: nat, sent: Sent)
    requires ResponsesWithin(s, sent) && c < |s.calls|
    ensures ResponsesWithin(PushCall(s, c), sent)
  {
    QuietStepKeeps(s, PushCall(s, c), sent);
  }

  lemma AskKeepsWithin(cs: Scheme, s: Server, ctx: Context, request: Request, sent: Sent)
    requires ResponsesWithin(s, sent)
    requires request.PairResponse? ==> (ctx.peerId, request.relation) in sent
    ensures ResponsesWithin(AskStep(cs, s, ctx, request), sent)
  {
    if ValidContext(cs, ctx) {
      var t := FutureOf(cs, s, ctx, request);
      assert t.ResponseTask? ==> request.PairResponse? && SentTo(sent, t.relation, t.to);
    }
  }

  lemma SessionKeepsWithin(s: Server, j: nat, what: SessionRequest, sent: Sent)
    requires ResponsesWithin(s, sent)
    ensures ResponsesWithin(SessionStep(s, j, what), sent)
  {
    if j < |s.objects| && s.objects[j].live {
      Sinks.StepRecordsCall(s.objects[j].events, Sinks.Calls(Sinks.Subscribe));
      QuietStepKeeps(s, SessionStep(s, j, what), sent);
    }
  }

  lemma StepKeepsWithin(cs: Scheme, s: Server, a: Action, sent: Sent)
    requires Invariant(cs, s) && ResponsesWithin(s, sent)
    requires a.Ask? && a.request.PairResponse? ==> (a.ctx.peerId, a.request.relation) in sent
    ensures ResponsesWithin(Step(cs, s, a), sent)
  {
    match a
    case Ask(ctx, request) => AskKeepsWithin(cs, s, ctx, request, sent);
    case OnSession(j, what) => SessionKeepsWithin(s, j, what, sent);
    case Poll(i) => if i < |s.tasks| { PollKeepsWithin(cs, s, i, sent); }
    case _ => StreamKeepsWithin(cs, s, a, sent);
  }

  lemma StreamKeepsWithin(cs: Scheme, s: Server, a: Action, sent: Sent)
    requires ResponsesWithin(s, sent) && (a.EventChannel? || a.AppChannel? || a.OnCall?)
    ensures ResponsesWithin(Step(cs, s, a), sent)
  {
    if a.EventChannel? && a.session < |s.objects| {
      Sinks.StepRecordsCall(s.objects[a.session].events, Sinks.Chan(a.chan, a.action));
    }
    QuietStepKeeps(s, Step(cs, s, a), sent);
  }

  lemma MoreSent(s: Server, sent: Sent, sent': Sent)
    requires ResponsesWithin(s, sent) && sent <= sent'
    ensures ResponsesWithin(s, sent')
  {
    forall p, to | SentTo(sent, p, to) ensures SentTo(sent', p, to) {
      var sender :| (sender, p) in sent && PeerId(p, sender) == Some(to);
      assert (sender, p) in sent';
    }
  }

  // ------------------------------------------------------------------ the network

  /** A relation was sent to its holder by its acceptor, or accepted by the holder itself. */
  ghost predicate HasSource(c: Client, p: Proof, sent: Sent) {
    || SentTo(sent, p, c.signer.id)
    || exists k :: 0 <= k < |c.accepting| && c.accepting[k].proof == p && c.accepting[k].done
  }

  ghost predicate ClientSourced(c: Client, sent: Sent) {
    && (forall i :: 0 <= i < |c.relations| ==> HasSource(c, c.relations[i], sent))
    && (forall k :: 0 <= k < |c.accepting| ==>
          && (c.accepting[k].done ==> c.accepting[k].proof in c.relations)
          && PeerId(c.accepting[k].proof, c.signer.id).Some?
          && (c.accepting[k].proof.aId != c.accepting[k].proof.bId ==>
                Less(c.accepting[k].proof.aId, c.accepting[k].proof.bId)))
  }

  ghost predicate NetSourced(net: Net) {
    && (forall h :: 0 <= h < |net.homes| ==> ResponsesWithin(net.homes[h], AllAccepted(net.clients)))
    && (forall c :: 0 <= c < |net.clients| ==> ClientSourced(net.clients[c], AllAccepted(net.clients)))
  }

  /** Every response in the run is sent through Accept. */
  predicate FollowsProtocol(a: NetAction) {
    a.AtHome? ==> !(a.action.Ask? && a.action.request.PairResponse?)
  }

  lemma AcceptedUnchanged(clients: seq<Client>, c: nat, client': Client)
    requires c < |clients| && client'.signer == clients[c].signer
    requires |client'.accepting| == |clients[c].accepting|
    requires forall k :: 0 <= k < |client'.accepting| ==> client'.accepting[k].proof == clients[c].accepting[k].proof
    ensures AllAccepted(clients[c := client']) == AllAccepted(clients)
  {
    var after := clients[c := client'];
    forall x ensures x in AllAccepted(after) <==> x in AllAccepted(clients) {
      if x in AllAccepted(after) {
        var i, k :| 0 <= i < |after| && 0 <= k < |after[i].accepting| &&
          x == (after[i].signer.id, after[i].accepting[k].proof);
        assert x == (clients[i].signer.id, clients[i].accepting[k].proof);
      }
      if x in AllAccepted(clients) {
        var i, k :| 0 <= i < |clients| && 0 <= k < |clients[i].accepting| &&
          x == (clients[i].signer.id, clients[i].accepting[k].proof);
        assert x == (after[i].signer.id, after[i].accepting[k].proof);
      }
    }
  }

  lemma AcceptedGrows(clients: seq<Client>, c: nat, record: Accepting)
    requires c < |clients|
    ensures var clients' := clients[c := clients[c].(accepting := clients[c].accepting + [record])];
            && AllAccepted(clients) <= AllAccepted(clients')
            && (clients[c].signer.id, record.proof) in AllAccepted(clients')
  {
    var clients' := clients[c := clients[c].(accepting := clients[c].accepting + [record])];
    forall x | x in AllAccepted(clients) ensures x in AllAccepted(clients') {
      var i, k :| 0 <= i < |clients| && 0 <= k < |clients[i].accepting| &&
        x == (clients[i].signer.id, clients[i].accepting[k].proof);
      assert x == (clients'[i].signer.id, clients'[i].accepting[k].proof);
    }
    var n := |clients[c].accepting|;
    assert (clients[c].signer.id, record.proof) == (clients'[c].signer.id, clients'[c].accepting[n].proof);
  }

  lemma ClientKeepsSource(c: Client, sent: Sent, sent': Sent)
    requires ClientSourced(c, sent) && sent <= sent'
    ensures ClientSourced(c, sent')
  {
    forall i | 0 <= i < |c.relations| ensures HasSource(c, c.relations[i], sent') {
      assert HasSource(c, c.relations[i], sent);
      if SentTo(sent, c.relations[i], c.signer.id) {
        var sender :| (sender, c.relations[i]) in sent && PeerId(c.relations[i], sender) == Some(c.signer.id);
        assert (sender, c.relations[i]) in sent';
      }
    }
  }

  lemma AtHomeKeepsSource(cs: Scheme, net: Net, h: nat, a: Action)
    requires NetSound(cs, net) && NetSourced(net) && h < |net.homes|
    requires !(a.Ask? && a.request.PairResponse?)
    ensures NetSourced(net.(homes := net.homes[h := Step(cs, net.homes[h], a)]))
  {
    StepKeepsWithin(cs, net.homes[h], a, AllAccepted(net.clients));
  }

  lemma AcceptKeepsSource(cs: Scheme, net: Net, c: nat, half: HalfProof, h: nat)
    requires NetSound(cs, net) && NetSourced(net) && c < |net.clients| && h < |net.homes|
    ensures NetSourced(AcceptStep(cs, net, c, half, h))
  {
    var client, net' := net.clients[c], AcceptStep(cs, net, c, half, h);
    var signed := SignRemainingHalf(cs, half, client.signer);
    if signed.Some? && ValidContext(cs, ContextOf(client)) {
      var record := Accepting(h, |net.homes[h].tasks|, signed.value, false);
      var sent, sent' := AllAccepted(net.clients), AllAccepted(net'.clients);
      AcceptedGrows(net.clients, c, record);
      forall i | 0 <= i < |net'.homes| ensures ResponsesWithin(net'.homes[i], sent') {
        MoreSent(net.homes[i], sent, sent');
        if i == h { StepKeepsWithin(cs, net.homes[h], Ask(ContextOf(client), PairResponse(signed.value)), sent'); }
      }
      Trichotomy(half.signerId, client.signer.id);
      forall i | 0 <= i < |net'.clients| ensures ClientSourced(net'.clients[i], sent') {
        ClientKeepsSource(net.clients[i], sent, sent');
        if i == c { RecordAdded(client, record, sent'); }
      }
    }
  }

  lemma RecordAdded(c: Client, record: Accepting, sent: Sent)
    requires ClientSourced(c, sent) && !record.done && PeerId(record.proof, c.signer.id).Some?
    requires record.proof.aId != record.proof.bId ==> Less(record.proof.aId, record.proof.bId)
    ensures ClientSourced(c.(accepting := c.accepting + [record]), sent)
  {
    var c' := c.(accepting := c.accepting + [record]);
    forall i | 0 <= i < |c'.relations| ensures HasSource(c', c'.relations[i], sent) {
      assert HasSource(c, c.relations[i], sent);
      if !SentTo(sent, c.relations[i], c.signer.id) {
        var k :| 0 <= k < |c.accepting| && c.accepting[k].proof == c.relations[i] && c.accepting[k].done;
        assert c'.accepting[k] == c.accepting[k];
      }
    }
  }

  lemma RelationAdded(c: Client, c': Client, p: seq<Proof>, sent: Sent)
    requires ClientSourced(c, sent) && c'.signer == c.signer && c'.relations == c.relations + p
    requires |c'.accepting| == |c.accepting|
    requires forall k :: 0 <= k < |c.accepting| ==>
               && c'.accepting[k].proof == c.accepting[k].proof
               && (c.accepting[k].done ==> c'.accepting[k].done)
               && (c'.accepting[k].done ==> c.accepting[k].done || c.accepting[k].proof in p)
    requires forall q :: q in p ==> HasSource(c', q, sent)
    ensures ClientSourced(c', sent)
  {
    forall i | 0 <= i < |c'.relations| ensures HasSource(c', c'.relations[i], sent) {
      if i < |c.relations| {
        assert HasSource(c, c.relations[i], sent);
        if !SentTo(sent, c.relations[i], c.signer.id) {
          var k :| 0 <= k < |c.accepting| && c.accepting[k].proof == c.relations[i] && c.accepting[k].done;
          assert c'.accepting[k].done;
        }
      } else {
        assert c'.relations[i] in p;
      }
    }
  }

  lemma AcceptedKeepsSource(net: Net, c: nat, k: nat)
    requires NetSourced(net) && c < |net.clients| && k < |net.clients[c].accepting|
    ensures NetSourced(AcceptedStep(net, c, k))
  {
    var net' := AcceptedStep(net, c, k);
    if net' != net {
      var client, client' := net.clients[c], net'.clients[c];
      AcceptedUnchanged(net.clients, c, client');
      assert client'.accepting[k].done;
      RelationAdded(client, client', [client.accepting[k].proof], AllAccepted(net.clients));
    }
  }

  lemma HandledWasSent(cs: Scheme, s: Server, j: nat, ch: nat, sent: Sent)
    requires Invariant(cs, s) && ResponsesWithin(s, sent) && j < |s.objects|
    requires ch < |s.objects[j].events.chans| && s.objects[j].events.chans[ch].queue != []
    ensures forall p :: p in Stored(s.objects[j].events.chans[ch].queue[0]) ==> SentTo(sent, p, s.objects[j].ctx.peerId)
  {
    var o, m := s.objects[j], s.objects[j].events.chans[ch].queue[0];
    assert SessionSound(cs, o) && EventsWithin(o, sent);
    QueueHeadPushed(o.events, ch);
  }

  lemma HandleKeepsSource(cs: Scheme, net: Net, c: nat, h: nat, j: nat, ch: nat)
    requires NetSound(cs, net) && NetSourced(net) && c < |net.clients| && h < |net.homes|
    ensures NetSourced(HandleStep(cs, net, c, h, j, ch))
  {
    var net' := HandleStep(cs, net, c, h, j, ch);
    if net' != net {
      var client, client' := net.clients[c], net'.clients[c];
      AcceptedUnchanged(net.clients, c, client');
      AtHomeKeepsSource(cs, net, h, EventChannel(j, ch, Sinks.Receive));
      HandledWasSent(cs, net.homes[h], j, ch, AllAccepted(net.clients));
      RelationAdded(client, client', Stored(net.homes[h].objects[j].events.chans[ch].queue[0]),
          AllAccepted(net.clients));
    }
  }

  lemma StepKeepsSource(cs: Scheme, net: Net, a: NetAction)
    requires NetSound(cs, net) && NetSourced(net) && FollowsProtocol(a)
    ensures NetSourced(NetStep(cs, net, a))
  {
    match a
    case AtHome(h, action) => if h < |net.homes| { AtHomeKeepsSource(cs, net, h, action); }
    case Initiate(c, relationType, peer, h) =>
      if c < |net.clients| && h < |net.homes| {
        AtHomeKeepsSource(cs, net, h, Invitation(cs, net.clients[c], relationType, peer));
      }
    case Accept(c, half, h) => if c < |net.clients| && h < |net.homes| { AcceptKeepsSource(cs, net, c, half, h); }
    case Accepted(c, k) => if c < |net.clients| && k < |net.clients[c].accepting| { AcceptedKeepsSource(net, c, k); }
    case Handle(c, h, j, ch) => if c < |net.clients| && h < |net.homes| { HandleKeepsSource(cs, net, c, h, j, ch); }
  }

  lemma {:induction false} EveryRelationSourced(cs: Scheme, homes: seq<Signer>, clients: seq<Signer>,
      run: seq<NetAction>)
    requires cs.CollisionFree() && OwnProofsOnly(homes, run)
    requires forall c :: 0 <= c < |clients| ==> clients[c].Valid(cs)
    requires forall i :: 0 <= i < |run| ==> FollowsProtocol(run[i])
    ensures NetSourced(NetRun(cs, NewNet(homes, clients), run))
  {
    if run != [] {
      var before := run[..|run| - 1];
      RelationsAlwaysValid(cs, homes, clients, before);
      EveryRelationSourced(cs, homes, clients, before);
      StepKeepsSource(cs, NetRun(cs, NewNet(homes, clients), before), run[|run| - 1]);
    }
  }

  /** The acceptor of `p`: client `b` has an accept_relation for exactly this proof, and holds it
      too from the moment that call has returned. */
  ghost predicate AcceptorOf(net: Net, b: nat, p: Proof) {
    && b < |net.clients|
    && exists k :: 0 <= k < |net.clients[b].accepting| && net.clients[b].accepting[k].proof == p
         && (net.clients[b].accepting[k].done ==> p in net.clients[b].relations)
  }

  ghost predicate CompletedBy(net: Net, a: nat, p: Proof) {
    && a < |net.clients|
    && exists k :: 0 <= k < |net.clients[a].accepting| && net.clients[a].accepting[k].proof == p
         && net.clients[a].accepting[k].done
  }

  /** A relation between two different ids that a client holds is in canonical order,
      and either the client completed an accept_relation for it, or its peer under the proof is
      the acceptor of the very same proof. */
  lemma EveryRelationHasAcceptor(cs: Scheme, homes: seq<Signer>, clients: seq<Signer>, run: seq<NetAction>, a: nat,
                                 i: nat)
    requires cs.CollisionFree() && OwnProofsOnly(homes, run)
    requires forall c :: 0 <= c < |clients| ==> clients[c].Valid(cs)
    requires forall i :: 0 <= i < |run| ==> FollowsProtocol(run[i])
    requires var net := NetRun(cs, NewNet(homes, clients), run);
             a < |net.clients| && i < |net.clients[a].relations| &&
             net.clients[a].relations[i].aId != net.clients[a].relations[i].bId
    ensures var net := NetRun(cs, NewNet(homes, clients), run);
            var p := net.clients[a].relations[i];
            && Less(p.aId, p.bId)
            && (CompletedBy(net, a, p) ||
                exists b: nat :: AcceptorOf(net, b, p) &&
                  PeerId(p, net.clients[a].signer.id) == Some(net.clients[b].signer.id))
  {
    EveryRelationSourced(cs, homes, clients, run);
    var net := NetRun(cs, NewNet(homes, clients), run);
    var p, sent := net.clients[a].relations[i], AllAccepted(net.clients);
    assert ClientSourced(net.clients[a], sent);
    assert HasSource(net.clients[a], p, sent);
    if SentTo(sent, p, net.clients[a].signer.id) {
      var b := SenderAccepted(net, p, net.clients[a].signer.id);
    }
  }

  lemma SenderAccepted(net: Net, p: Proof, to: ProfileId) returns (b: nat)
    requires NetSourced(net) && SentTo(AllAccepted(net.clients), p, to) && p.aId != p.bId
    ensures AcceptorOf(net, b, p) && Less(p.aId, p.bId)
    ensures PeerId(p, net.clients[b].signer.id) == Some(to) && PeerId(p, to) == Some(net.clients[b].signer.id)
  {
    var sender :| (sender, p) in AllAccepted(net.clients) && PeerId(p, sender) == Some(to);
    var c, k :| 0 <= c < |net.clients| && 0 <= k < |net.clients[c].accepting| &&
      (sender, p) == (net.clients[c].signer.id, net.clients[c].accepting[k].proof);
    b := c;
    assert ClientSourced(net.clients[b], AllAccepted(net.clients));
  }
}
