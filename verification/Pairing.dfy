/** Pairing between any number of clients over any number of homes: the client side of
    connect/src/profile.rs (initiate_relation, accept_relation, on_new_relation,
    start_event_handler) together with the home server machine. */
module Pairing {
  import opened Bytes
  import opened Prelude
  import opened Relation
  import opened HomeServer
  import opened HomeInvariants
  import Sinks = EventSink

  /** An `accept_relation` under way: the future of its pair_response, and the proof to store. */
  datatype Accepting = Accepting(home: nat, task: nat, proof: Proof, done: bool)

  datatype Client = Client(signer: Signer, relations: seq<Proof>, accepting: seq<Accepting>)

  datatype Net = Net(homes: seq<Server>, clients: seq<Client>)

  datatype NetAction =
    | AtHome(home: nat, action: Action)                                   // anyone, anything
    | Initiate(client: nat, relationType: Blob, peer: ProfileId, home: nat)
    | Accept(client: nat, half: HalfProof, home: nat)
    | Accepted(client: nat, k: nat)                                       // pair_response returned
    | Handle(client: nat, home: nat, session: nat, chan: nat)             // next event of the handler

  function ContextOf(c: Client): Context {
    Context(c.signer.id, c.signer.publicKey)
  }

  function NewNet(homes: seq<Signer>, clients: seq<Signer>): Net {
    Net(seq(|homes|, h requires 0 <= h < |homes| => Fresh(homes[h])),
        seq(|clients|, c requires 0 <= c < |clients| => Client(clients[c], [], [])))
  }

  // ------------------------------------------------------------------ steps

  /** Sign a half-proof for the peer and send it to a home of the peer. */
  function Invitation(cs: Scheme, c: Client, relationType: Blob, peer: ProfileId): Action {
    Ask(ContextOf(c), PairRequest(NewHalf(cs, relationType, peer, c.signer)))
  }

  function InitiateStep(cs: Scheme, net: Net, c: nat, relationType: Blob, peer: ProfileId, h: nat): Net
    requires c < |net.clients| && h < |net.homes|
  {
    net.(homes := net.homes[h := Step(cs, net.homes[h], Invitation(cs, net.clients[c], relationType, peer))])
  }

  /** Countersign a half-proof addressed to oneself and send it to a home of its signer. */
  function AcceptStep(cs: Scheme, net: Net, c: nat, half: HalfProof, h: nat): Net
    requires c < |net.clients| && h < |net.homes|
  {
    var client := net.clients[c];
    match SignRemainingHalf(cs, half, client.signer)
    case None => net
    case Some(proof) =>
      if !ValidContext(cs, ContextOf(client)) then net else
      var record := Accepting(h, |net.homes[h].tasks|, proof, false);
      Net(net.homes[h := Step(cs, net.homes[h], Ask(ContextOf(client), PairResponse(proof)))],
          net.clients[c := client.(accepting := client.accepting + [record])])
  }

  /** The response was taken by the home: store the relation. */
  function AcceptedStep(net: Net, c: nat, k: nat): Net
    requires c < |net.clients| && k < |net.clients[c].accepting|
  {
    var client, record := net.clients[c], net.clients[c].accepting[k];
    if record.done || record.home >= |net.homes| || record.task >= |net.homes[record.home].tasks|
       || net.homes[record.home].tasks[record.task] != Finished(true) then net
    else net.(clients := net.clients[c := client.(
           relations := client.relations + [record.proof],
           accepting := client.accepting[k := record.(done := true)])])
  }

  /** What the handler stores of a message. */
  function Stored(m: Sinks.Message<Event>): seq<Proof> {
    if m.Item? && m.value.PairingResponse? then [m.value.relation] else []
  }

  /** The client's handler takes the next event off a stream of one of its own sessions. */
  function HandleStep(cs: Scheme, net: Net, c: nat, h: nat, j: nat, ch: nat): Net
    requires c < |net.clients| && h < |net.homes|
  {
    var client, home := net.clients[c], net.homes[h];
    if j >= |home.objects| || home.objects[j].ctx.peerId != client.signer.id
       || ch >= |home.objects[j].events.chans| || home.objects[j].events.chans[ch].queue == [] then net
    else
      Net(net.homes[h := Step(cs, home, EventChannel(j, ch, Sinks.Receive))],
          net.clients[c := client.(
            relations := client.relations + Stored(home.objects[j].events.chans[ch].queue[0]))])
  }

  function NetStep(cs: Scheme, net: Net, a: NetAction): Net {
    match a
    case AtHome(h, action) =>
      if h < |net.homes| then net.(homes := net.homes[h := Step(cs, net.homes[h], action)]) else net
    case Initiate(c, relationType, peer, h) =>
      if c < |net.clients| && h < |net.homes| then InitiateStep(cs, net, c, relationType, peer, h) else net
    case Accept(c, half, h) =>
      if c < |net.clients| && h < |net.homes| then AcceptStep(cs, net, c, half, h) else net
    case Accepted(c, k) =>
      if c < |net.clients| && k < |net.clients[c].accepting| then AcceptedStep(net, c, k) else net
    case Handle(c, h, j, ch) =>
      if c < |net.clients| && h < |net.homes| then HandleStep(cs, net, c, h, j, ch) else net
  }

  function NetRun(cs: Scheme, start: Net, run: seq<NetAction>): Net {
    if run == [] then start else NetStep(cs, NetRun(cs, start, run[..|run| - 1]), run[|run| - 1])
  }

  /** A handler that takes a message of a stream of its own session stores the relation of a pairing
      response, once and last, and nothing of any other message; nobody else's relations change. */
  lemma HandlerStoresExactly(cs: Scheme, net: Net, c: nat, h: nat, j: nat, ch: nat, m: Sinks.Message<Event>)
    requires c < |net.clients| && h < |net.homes| && j < |net.homes[h].objects|
    requires net.homes[h].objects[j].ctx.peerId == net.clients[c].signer.id
    requires ch < |net.homes[h].objects[j].events.chans| && net.homes[h].objects[j].events.chans[ch].queue != []
    requires m == net.homes[h].objects[j].events.chans[ch].queue[0]
    ensures var net' := NetStep(cs, net, Handle(c, h, j, ch));
            && |net'.clients| == |net.clients|
            && (forall pos, p :: m == Sinks.Item(pos, PairingResponse(p)) ==>
                  net'.clients[c].relations == net.clients[c].relations + [p])
            && ((forall pos, p :: m != Sinks.Item(pos, PairingResponse(p))) ==> net'.clients == net.clients)
            && forall b :: 0 <= b < |net.clients| && b != c ==> net'.clients[b] == net.clients[b]
  {
    if m.Item? && m.value.PairingResponse? {
      assert m == Sinks.Item(m.pos, PairingResponse(m.value.relation));
    } else {
      assert net.clients[c].relations + [] == net.clients[c].relations;
    }
  }

  /** An acceptance under way is stored when its response has been taken, and only then, only once. */
  lemma AcceptanceStoresExactly(cs: Scheme, net: Net, c: nat, k: nat)
    requires c < |net.clients| && k < |net.clients[c].accepting|
    ensures var net', rec := NetStep(cs, net, Accepted(c, k)), net.clients[c].accepting[k];
            var taken := rec.home < |net.homes| && rec.task < |net.homes[rec.home].tasks|
                         && net.homes[rec.home].tasks[rec.task] == Finished(true);
            && |net'.clients| == |net.clients| && net'.homes == net.homes
            && net'.clients[c].relations == net.clients[c].relations + (if taken && !rec.done then [rec.proof] else [])
            && (taken ==> net'.clients[c].accepting == net.clients[c].accepting[k := rec.(done := true)])
            && (!taken ==> net' == net)
            && forall b :: 0 <= b < |net.clients| && b != c ==> net'.clients[b] == net.clients[b]
  {
    if net.clients[c].accepting[k].done {
      assert net.clients[c].accepting[k := net.clients[c].accepting[k]] == net.clients[c].accepting;
    }
  }

  lemma {:induction false} RunConcat(cs: Scheme, start: Net, run: seq<NetAction>, later: seq<NetAction>)
    ensures NetRun(cs, start, run + later) == NetRun(cs, NetRun(cs, start, run), later)
    decreases |later|
  {
    if later == [] {
      assert run + later == run;
    } else {
      RunConcat(cs, start, run, later[..|later| - 1]);
      assert (run + later)[..|run + later| - 1] == run + later[..|later| - 1];
    }
  }

  // ------------------------------------------------------------------ every relation is valid

  /** The proof validates between the client and whoever the proof names besides it. */
  ghost predicate Related(cs: Scheme, me: Context, p: Proof) {
    exists peer :: ValidContext(cs, peer) && PeerId(p, me.peerId) == Some(peer.peerId) &&
      ValidProof(cs, p, me.peerId, me.peerKey, peer.peerId, peer.peerKey)
  }

  ghost predicate ClientSound(cs: Scheme, c: Client) {
    && c.signer.Valid(cs)
    && forall i :: 0 <= i < |c.relations| ==> Related(cs, ContextOf(c), c.relations[i])
  }

  /** The future of a response is still that response, or has failed, or validated it. */
  ghost predicate ResponseSoundAt(cs: Scheme, tasks: seq<Task>, me: Context, record: Accepting) {
    && record.task < |tasks|
    && (|| (tasks[record.task].ResponseTask? && tasks[record.task].ctx == me
            && tasks[record.task].relation == record.proof
            && PeerId(record.proof, me.peerId) == Some(tasks[record.task].to))
        || tasks[record.task] == Finished(false)
        || (tasks[record.task] == Finished(true) && Related(cs, me, record.proof)))
  }

  /** The smaller id comes first. */
  predicate Canonical(p: Proof) {
    p.aId == p.bId || Less(p.aId, p.bId)
  }

  ghost predicate AcceptingSound(cs: Scheme, homes: seq<Server>, c: Client) {
    forall k :: 0 <= k < |c.accepting| ==>
      c.accepting[k].home < |homes| && Canonical(c.accepting[k].proof) &&
      ResponseSoundAt(cs, homes[c.accepting[k].home].tasks, ContextOf(c), c.accepting[k])
  }

  ghost predicate HomesSound(cs: Scheme, homes: seq<Server>) {
    forall h :: 0 <= h < |homes| ==> Invariant(cs, homes[h])
  }

  ghost predicate NetSound(cs: Scheme, net: Net) {
    && HomesSound(cs, net.homes)
    && (forall c :: 0 <= c < |net.clients| ==> ClientSound(cs, net.clients[c]))
    && (forall c :: 0 <= c < |net.clients| ==> AcceptingSound(cs, net.homes, net.clients[c]))
  }

  lemma SwapParties(cs: Scheme, p: Proof, from: Context, me: Context)
    requires cs.CollisionFree() && ValidContext(cs, me) && RelationBetween(cs, p, from, me)
    ensures Related(cs, me, p)
  {
    ValidProofSymmetricForProfiles(cs, p, from.peerId, from.peerKey, me.peerId, me.peerKey);
    assert ValidContext(cs, from) && PeerId(p, me.peerId) == Some(from.peerId);
  }

  lemma RelatedByStored(cs: Scheme, p: Proof, me: Context, to: ProfileId, stored: Option<OwnProfile>)
    requires StoredUnder(cs, stored, to) && ProofHolds(cs, p, me, stored)
    ensures Related(cs, me, p)
  {
    var peer := Context(to, stored.value.profile.publicKey);
    assert ValidContext(cs, peer) && PeerId(p, me.peerId) == Some(peer.peerId);
  }

  lemma ResponseStaysSound(cs: Scheme, s: Server, a: Action, me: Context, record: Accepting)
    requires Invariant(cs, s) && ResponseSoundAt(cs, s.tasks, me, record)
    ensures ResponseSoundAt(cs, Step(cs, s, a).tasks, me, record)
  {
    var i := record.task;
    if a == Poll(i) {
      PollTasks(cs, s, i);
      if s.tasks[i].ResponseTask? {
        assert TaskSound(cs, i, s.tasks[i], s.calls);
        if ProofHolds(cs, record.proof, me, s.tasks[i].stored) {
          RelatedByStored(cs, record.proof, me, s.tasks[i].to, s.tasks[i].stored);
        }
      }
    } else {
      TaskStable(cs, s, a, i);
    }
  }

  /** One home takes a step: its own invariant and what the clients wait for stay sound. */
  lemma HomeStepKeeps(cs: Scheme, homes: seq<Server>, h: nat, a: Action)
    requires cs.CollisionFree() && HomesSound(cs, homes) && h < |homes| && OwnProof(homes[h].home, a)
    ensures HomesSound(cs, homes[h := Step(cs, homes[h], a)])
  {
    StepKeeps(cs, homes[h], a);
  }

  lemma HomeStepKeepsAccepting(cs: Scheme, homes: seq<Server>, h: nat, a: Action, c: Client)
    requires HomesSound(cs, homes) && h < |homes| && AcceptingSound(cs, homes, c)
    ensures AcceptingSound(cs, homes[h := Step(cs, homes[h], a)], c)
  {
    var homes' := homes[h := Step(cs, homes[h], a)];
    forall k | 0 <= k < |c.accepting|
      ensures ResponseSoundAt(cs, homes'[c.accepting[k].home].tasks, ContextOf(c), c.accepting[k])
    {
      assert ResponseSoundAt(cs, homes[c.accepting[k].home].tasks, ContextOf(c), c.accepting[k]);
      if c.accepting[k].home == h { ResponseStaysSound(cs, homes[h], a, ContextOf(c), c.accepting[k]); }
    }
  }

  lemma AtHomeKeeps(cs: Scheme, net: Net, h: nat, a: Action)
    requires cs.CollisionFree() && NetSound(cs, net) && h < |net.homes| && OwnProof(net.homes[h].home, a)
    ensures NetSound(cs, net.(homes := net.homes[h := Step(cs, net.homes[h], a)]))
  {
    HomeStepKeeps(cs, net.homes, h, a);
    forall c | 0 <= c < |net.clients|
      ensures AcceptingSound(cs, net.homes[h := Step(cs, net.homes[h], a)], net.clients[c])
    {
      HomeStepKeepsAccepting(cs, net.homes, h, a, net.clients[c]);
    }
  }

  lemma AcceptKeeps(cs: Scheme, net: Net, c: nat, half: HalfProof, h: nat)
    requires cs.CollisionFree() && NetSound(cs, net) && c < |net.clients| && h < |net.homes|
    ensures NetSound(cs, AcceptStep(cs, net, c, half, h))
  {
    var client := net.clients[c];
    var signed := SignRemainingHalf(cs, half, client.signer);
    assert ClientSound(cs, client);
    if signed.Some? {
      var ask := Ask(ContextOf(client), PairResponse(signed.value));
      AtHomeKeeps(cs, net, h, ask);
      var net' := AcceptStep(cs, net, c, half, h);
      var client' := net'.clients[c];
      Trichotomy(half.signerId, client.signer.id);
      assert ResponseSoundAt(cs, net'.homes[h].tasks, ContextOf(client), client'.accepting[|client.accepting|]);
      assert AcceptingSound(cs, net'.homes, client);
      assert AcceptingSound(cs, net'.homes, client');
    }
  }

  lemma AcceptedKeeps(cs: Scheme, net: Net, c: nat, k: nat)
    requires NetSound(cs, net) && c < |net.clients| && k < |net.clients[c].accepting|
    ensures NetSound(cs, AcceptedStep(net, c, k))
  {
    var client, client' := net.clients[c], AcceptedStep(net, c, k).clients[c];
    assert ClientSound(cs, client) && AcceptingSound(cs, net.homes, client);
    assert ResponseSoundAt(cs, net.homes[client.accepting[k].home].tasks, ContextOf(client), client.accepting[k]);
    assert AcceptingSound(cs, net.homes, client');
    assert ClientSound(cs, client');
  }

  /** What the handler takes off the stream was validated for the client. */
  lemma HandledIsRelated(cs: Scheme, s: Server, j: nat, ch: nat, me: Context)
    requires cs.CollisionFree() && Invariant(cs, s) && ValidContext(cs, me)
    requires j < |s.objects| && s.objects[j].ctx.peerId == me.peerId
    requires ch < |s.objects[j].events.chans| && s.objects[j].events.chans[ch].queue != []
    ensures forall p :: p in Stored(s.objects[j].events.chans[ch].queue[0]) ==> Related(cs, me, p)
  {
    var o, m := s.objects[j], s.objects[j].events.chans[ch].queue[0];
    assert SessionSound(cs, o);
    QueueHeadPushed(o.events, ch);
    if m.Item? && m.value.PairingResponse? {
      assert o.ctx == me;
      ResponseRelates(cs, me, m.value);
    }
  }

  lemma QueueHeadPushed(sink: Sinks.Sink<Event>, ch: nat)
    requires Sinks.Invariant(sink) && ch < |sink.chans| && sink.chans[ch].queue != []
    ensures var m := sink.chans[ch].queue[0];
            m.Warning? || (m.pos < |sink.calls| && sink.calls[m.pos] == Sinks.Push(m.value))
  {
    var m := sink.chans[ch].queue[0];
    assert m in Sinks.Ledger(sink.chans[ch]);
    Sinks.HeldWasPushed(sink, m);
  }

  lemma ResponseRelates(cs: Scheme, me: Context, event: Event)
    requires cs.CollisionFree() && ValidContext(cs, me) && event.PairingResponse? && EventSound(cs, me, event)
    ensures Related(cs, me, event.relation)
  {
    var from :| RelationBetween(cs, event.relation, from, me);
    SwapParties(cs, event.relation, from, me);
  }

  lemma HandleKeeps(cs: Scheme, net: Net, c: nat, h: nat, j: nat, ch: nat)
    requires cs.CollisionFree() && NetSound(cs, net) && c < |net.clients| && h < |net.homes|
    ensures NetSound(cs, HandleStep(cs, net, c, h, j, ch))
  {
    var net' := HandleStep(cs, net, c, h, j, ch);
    if net' != net {
      var client, client' := net.clients[c], net'.clients[c];
      assert ClientSound(cs, client);
      AtHomeKeeps(cs, net, h, EventChannel(j, ch, Sinks.Receive));
      HandledIsRelated(cs, net.homes[h], j, ch, ContextOf(client));
      forall i | 0 <= i < |client'.relations| ensures Related(cs, ContextOf(client'), client'.relations[i]) {
        if i < |client.relations| { assert Related(cs, ContextOf(client), client.relations[i]); }
      }
      assert ClientSound(cs, client');
      assert AcceptingSound(cs, net'.homes, client);
      assert AcceptingSound(cs, net'.homes, client');
    }
  }

  /** Clients log in with their own home proofs. */
  predicate OwnProofsOnly(homes: seq<Signer>, run: seq<NetAction>) {
    forall i :: 0 <= i < |run| && run[i].AtHome? && run[i].home < |homes| ==>
      OwnProof(homes[run[i].home], run[i].action)
  }

  ghost predicate SameHomes(net: Net, homes: seq<Signer>) {
    |net.homes| == |homes| && forall h :: 0 <= h < |homes| ==> net.homes[h].home == homes[h]
  }

  lemma StepKeepsHomes(cs: Scheme, net: Net, a: NetAction, homes: seq<Signer>)
    requires SameHomes(net, homes)
    ensures SameHomes(NetStep(cs, net, a), homes)
  {
    match a
    case AtHome(h, action) => if h < |homes| { HomeFixed(cs, net.homes[h], action); }
    case _ =>
  }

  lemma NetStepKeeps(cs: Scheme, net: Net, a: NetAction)
    requires cs.CollisionFree() && NetSound(cs, net)
    requires a.AtHome? && a.home < |net.homes| ==> OwnProof(net.homes[a.home].home, a.action)
    ensures NetSound(cs, NetStep(cs, net, a))
  {
    match a
    case AtHome(h, action) => if h < |net.homes| { AtHomeKeeps(cs, net, h, action); }
    case Initiate(c, relationType, peer, h) =>
      if c < |net.clients| && h < |net.homes| {
        AtHomeKeeps(cs, net, h, Invitation(cs, net.clients[c], relationType, peer));
      }
    case Accept(c, half, h) => if c < |net.clients| && h < |net.homes| { AcceptKeeps(cs, net, c, half, h); }
    case Accepted(c, k) => if c < |net.clients| && k < |net.clients[c].accepting| { AcceptedKeeps(cs, net, c, k); }
    case Handle(c, h, j, ch) => if c < |net.clients| && h < |net.homes| { HandleKeeps(cs, net, c, h, j, ch); }
  }

  /** In every reachable state of the network, whatever others send to the homes, each relation a
      client holds validates between it and its peer. */
  lemma {:induction false} RelationsAlwaysValid(cs: Scheme, homes: seq<Signer>, clients: seq<Signer>,
      run: seq<NetAction>)
    requires cs.CollisionFree() && OwnProofsOnly(homes, run)
    requires forall c :: 0 <= c < |clients| ==> clients[c].Valid(cs)
    ensures var net := NetRun(cs, NewNet(homes, clients), run);
            NetSound(cs, net) && SameHomes(net, homes)
  {
    if run != [] {
      var before, a := run[..|run| - 1], run[|run| - 1];
      RelationsAlwaysValid(cs, homes, clients, before);
      NetStepKeeps(cs, NetRun(cs, NewNet(homes, clients), before), a);
      StepKeepsHomes(cs, NetRun(cs, NewNet(homes, clients), before), a, homes);
    }
  }
}
