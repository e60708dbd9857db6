/** A pairing that nothing disturbs completes: the initiator's request travels through the
    acceptor's home to the acceptor's handler, the response through the initiator's home to the
    initiator's handler, behind whatever is queued there, and both end up with the same proof. */
module PairingRun {
  import opened Bytes
  import opened Prelude
  import opened Relation
  import opened HomeServer
  import opened HomeInvariants
  import opened Pairing
  import Sinks = EventSink

  // ------------------------------------------------------------------ an event through a home

  /** Channel `ch` of session `j` is the current event stream of `id`. */
  predicate Listening(s: Server, id: ProfileId, j: nat, ch: nat) {
    && id in s.hosted && LiveSession(s, id) == Some(j)
    && var events := s.objects[j].events;
    && events.source == Sinks.Sender(ch) && ch < |events.chans| && events.chans[ch].open
  }

  /** The channel after `event` has been pushed and its send has completed. */
  function Queued(sink: Sinks.Sink<Event>, ch: nat, event: Event): Sinks.Channel<Event>
    requires ch < |sink.chans|
  {
    sink.chans[ch].(queue := sink.chans[ch].queue + [Sinks.Item(|sink.calls|, event)])
  }

  lemma PushedIsQueued(sink: Sinks.Sink<Event>, ch: nat, event: Event)
    requires sink.source == Sinks.Sender(ch) && ch < |sink.chans| && sink.chans[ch].open
    ensures var sink' := Sinks.Step(Sinks.PushTo(sink, event), Sinks.Chan(ch, Sinks.Deposit(|sink.chans[ch].pending|)));
            sink' == Sinks.Sink(sink.source, sink.chans[ch := Queued(sink, ch, event)],
                sink.calls + [Sinks.Push(event)])
  {
    var ch0, m := sink.chans[ch], Sinks.Item(|sink.calls|, event);
    assert Without(ch0.pending + [m], |ch0.pending|) == ch0.pending;
  }

  /** Asked, polled, and put into the channel. */
  function Passed(cs: Scheme, s: Server, ask: Action, j: nat, ch: nat): Server
    requires j < |s.objects| && ch < |s.objects[j].events.chans|
  {
    var polled := Step(cs, Step(cs, s, ask), Poll(|s.tasks|));
    Step(cs, polled, EventChannel(j, ch, Sinks.Deposit(|s.objects[j].events.chans[ch].pending|)))
  }

  /** `s'` is `s` with one finished future more and the event at the end of the stream. */
  ghost predicate Brought(s: Server, s': Server, j: nat, ch: nat, event: Event) {
    && j < |s.objects| && |s'.objects| == |s.objects| && ch < |s.objects[j].events.chans|
    && var events := s'.objects[j].events;
    && s' == s.(tasks := s.tasks + [Finished(true)], objects := s.objects[j := s.objects[j].(events := events)])
    && events.source == s.objects[j].events.source
    && events.chans == s.objects[j].events.chans[ch := Queued(s.objects[j].events, ch, event)]
  }

  lemma PushBrings(cs: Scheme, s: Server, to: ProfileId, event: Event, j: nat, ch: nat, polled: Server)
    requires Listening(s, to, j, ch)
    requires polled == s.(tasks := s.tasks + [Finished(true)],
      objects := s.objects[j := s.objects[j].(events := Sinks.PushTo(s.objects[j].events, event))])
    ensures Brought(s, Step(cs, polled,
        EventChannel(j, ch, Sinks.Deposit(|s.objects[j].events.chans[ch].pending|))), j, ch, event)
  {
    PushedIsQueued(s.objects[j].events, ch, event);
  }

  lemma ResponsePasses(cs: Scheme, s: Server, ctx: Context, p: Proof, to: ProfileId, j: nat, ch: nat)
    requires Listening(s, to, j, ch) && ValidContext(cs, ctx) && PeerId(p, ctx.peerId) == Some(to)
    requires ProofHolds(cs, p, ctx, Some(s.hosted[to]))
    ensures Brought(s, Passed(cs, s, Ask(ctx, PairResponse(p)), j, ch), j, ch, PairingResponse(p))
  {
    var s1 := AddTask(s, ResponseTask(ctx, p, to, Some(s.hosted[to])));
    assert Step(cs, s, Ask(ctx, PairResponse(p))) == s1;
    var f := Finish(s1, |s.tasks|, true);
    assert f == s.(tasks := s.tasks + [Finished(true)]);
    assert PollStep(cs, s1, |s.tasks|) == PushEvent(f, to, PairingResponse(p));
    PushBrings(cs, s, to, PairingResponse(p), j, ch, PushEvent(f, to, PairingResponse(p)));
  }

  lemma RequestPasses(cs: Scheme, s: Server, ctx: Context, half: HalfProof, j: nat, ch: nat)
    requires Listening(s, half.peerId, j, ch) && ValidContext(cs, ctx)
    requires half.signerId == ctx.peerId && ValidHalf(cs, half, ctx.peerKey)
    ensures Brought(s, Passed(cs, s, Ask(ctx, PairRequest(half)), j, ch), j, ch, PairingRequest(half))
  {
    var s1 := AddTask(s, RequestTask(half, true));
    assert Step(cs, s, Ask(ctx, PairRequest(half))) == s1;
    var f := Finish(s1, |s.tasks|, true);
    assert f == s.(tasks := s.tasks + [Finished(true)]);
    assert PollStep(cs, s1, |s.tasks|) == PushEvent(f, half.peerId, PairingRequest(half));
    PushBrings(cs, s, half.peerId, PairingRequest(half), j, ch, PushEvent(f, half.peerId, PairingRequest(half)));
  }

  // ------------------------------------------------------------------ draining a stream

  function Handles(c: nat, h: nat, j: nat, ch: nat, n: nat): seq<NetAction> {
    seq(n, _ => Handle(c, h, j, ch))
  }

  /** What a handler stores of a sequence of messages. */
  function StoredAll(ms: seq<Sinks.Message<Event>>): seq<Proof> {
    if ms == [] then [] else StoredAll(ms[..|ms| - 1]) + Stored(ms[|ms| - 1])
  }

  /** The stream after `n` messages have been taken off it. */
  function Taken(s: Server, j: nat, ch: nat, n: nat): Server
    requires j < |s.objects| && ch < |s.objects[j].events.chans| && n <= |s.objects[j].events.chans[ch].queue|
  {
    var sink := s.objects[j].events;
    var c := sink.chans[ch];
    SetEvents(s, j, sink.(chans := sink.chans[ch := c.(queue := c.queue[n..], received := c.received + c.queue[..n])]))
  }

  lemma TakenNext(cs: Scheme, s: Server, j: nat, ch: nat, n: nat)
    requires j < |s.objects| && ch < |s.objects[j].events.chans| && n < |s.objects[j].events.chans[ch].queue|
    ensures Step(cs, Taken(s, j, ch, n), EventChannel(j, ch, Sinks.Receive)) == Taken(s, j, ch, n + 1)
  {
    var sink := s.objects[j].events;
    var c := sink.chans[ch];
    assert c.queue[n..][1..] == c.queue[n + 1..] && c.queue[n..][0] == c.queue[n];
    assert c.received + c.queue[..n] + [c.queue[n]] == c.received + c.queue[..n + 1];
    var c1, c2 := c.(queue := c.queue[n..], received := c.received + c.queue[..n]),
                  c.(queue := c.queue[n + 1..], received := c.received + c.queue[..n + 1]);
    assert Sinks.ChannelStep(c1, Sinks.Receive) == c2;
    assert sink.chans[ch := c1][ch := c2] == sink.chans[ch := c2];
    var o1, o2 := s.objects[j].(events := sink.(chans := sink.chans[ch := c1])),
                  s.objects[j].(events := sink.(chans := sink.chans[ch := c2]));
    assert s.objects[j := o1][j := o2] == s.objects[j := o2];
  }

  lemma TakenNone(s: Server, j: nat, ch: nat)
    requires j < |s.objects| && ch < |s.objects[j].events.chans|
    ensures Taken(s, j, ch, 0) == s
  {
    var sink := s.objects[j].events;
    var c := sink.chans[ch];
    assert c.queue[0..] == c.queue && c.received + c.queue[..0] == c.received;
    assert sink.chans[ch := c] == sink.chans;
    assert s.objects[j := s.objects[j]] == s.objects;
  }

  /** The handler of client `c` takes the first `n` messages, in order, and stores what they carry. */
  lemma {:induction false} HandlesTake(cs: Scheme, net: Net, c: nat, h: nat, j: nat, ch: nat, n: nat)
    requires c < |net.clients| && h < |net.homes| && j < |net.homes[h].objects|
    requires net.homes[h].objects[j].ctx.peerId == net.clients[c].signer.id
    requires ch < |net.homes[h].objects[j].events.chans| && n <= |net.homes[h].objects[j].events.chans[ch].queue|
    ensures var q, client := net.homes[h].objects[j].events.chans[ch].queue, net.clients[c];
            NetRun(cs, net, Handles(c, h, j, ch, n)) ==
            Net(net.homes[h := Taken(net.homes[h], j, ch, n)],
                net.clients[c := client.(relations := client.relations + StoredAll(q[..n]))])
  {
    var s, q, client := net.homes[h], net.homes[h].objects[j].events.chans[ch].queue, net.clients[c];
    if n == 0 {
      TakenNone(s, j, ch);
      assert net.homes[h := s] == net.homes && net.clients[c := client] == net.clients;
      assert client.relations + StoredAll(q[..0]) == client.relations;
    } else {
      HandlesTake(cs, net, c, h, j, ch, n - 1);
      assert Handles(c, h, j, ch, n)[..n - 1] == Handles(c, h, j, ch, n - 1);
      TakenNext(cs, s, j, ch, n - 1);
      HandleOne(cs, net, c, h, j, ch, n - 1);
    }
  }

  lemma HandleOne(cs: Scheme, net: Net, c: nat, h: nat, j: nat, ch: nat, n: nat)
    requires c < |net.clients| && h < |net.homes| && j < |net.homes[h].objects|
    requires net.homes[h].objects[j].ctx.peerId == net.clients[c].signer.id
    requires ch < |net.homes[h].objects[j].events.chans| && n < |net.homes[h].objects[j].events.chans[ch].queue|
    ensures var q, client, s := net.homes[h].objects[j].events.chans[ch].queue, net.clients[c], net.homes[h];
            var mid := Net(net.homes[h := Taken(s, j, ch, n)],
                           net.clients[c := client.(relations := client.relations + StoredAll(q[..n]))]);
            NetStep(cs, mid, Handle(c, h, j, ch)) ==
            Net(net.homes[h := Step(cs, Taken(s, j, ch, n), EventChannel(j, ch, Sinks.Receive))],
                net.clients[c := client.(relations := client.relations + StoredAll(q[..n + 1]))])
  {
    var q, client, s := net.homes[h].objects[j].events.chans[ch].queue, net.clients[c], net.homes[h];
    assert q[..n + 1][..n] == q[..n] && q[n..][0] == q[n];
    assert client.relations + StoredAll(q[..n]) + Stored(q[n]) == client.relations + StoredAll(q[..n + 1]);
  }

  // ------------------------------------------------------------------ the two halves of a pairing

  function Pending(net: Net, h: nat, j: nat, ch: nat): nat
    requires h < |net.homes| && j < |net.homes[h].objects| && ch < |net.homes[h].objects[j].events.chans|
  {
    |net.homes[h].objects[j].events.chans[ch].pending|
  }

  function Waiting(net: Net, h: nat, j: nat, ch: nat): nat
    requires h < |net.homes| && j < |net.homes[h].objects| && ch < |net.homes[h].objects[j].events.chans|
  {
    |net.homes[h].objects[j].events.chans[ch].queue|
  }

  /** A call of a client at home `h`, its poll, its send into the channel. */
  function Sends(net: Net, call: NetAction, h: nat, j: nat, ch: nat): seq<NetAction>
    requires h < |net.homes| && j < |net.homes[h].objects| && ch < |net.homes[h].objects[j].events.chans|
  {
    [call, AtHome(h, Poll(|net.homes[h].tasks|)), AtHome(h, EventChannel(j, ch, Sinks.Deposit(Pending(net, h, j, ch))))]
  }

  lemma ThreeSteps(cs: Scheme, net: Net, x: seq<NetAction>)
    requires |x| == 3
    ensures NetRun(cs, net, x) == NetStep(cs, NetStep(cs, NetStep(cs, net, x[0]), x[1]), x[2])
  {
    assert x[..2][..1] == x[..1] && x[..1][..0] == [];
    assert NetRun(cs, net, x[..1]) == NetStep(cs, net, x[0]);
    assert NetRun(cs, net, x[..2]) == NetStep(cs, NetRun(cs, net, x[..1]), x[1]);
  }

  /** The three steps, given what the call does at the home and to its client. */
  lemma SendsPass(cs: Scheme, net: Net, call: NetAction, ask: Action, clients: seq<Client>, h: nat, j: nat, ch: nat)
    requires h < |net.homes| && j < |net.homes[h].objects| && ch < |net.homes[h].objects[j].events.chans|
    requires NetStep(cs, net, call) == Net(net.homes[h := Step(cs, net.homes[h], ask)], clients)
    ensures NetRun(cs, net, Sends(net, call, h, j, ch)) ==
        Net(net.homes[h := Passed(cs, net.homes[h], ask, j, ch)], clients)
  {
    ThreeSteps(cs, net, Sends(net, call, h, j, ch));
    var s1 := Step(cs, net.homes[h], ask);
    var s2 := Step(cs, s1, Poll(|net.homes[h].tasks|));
    assert net.homes[h := s1][h := s2] == net.homes[h := s2];
    var s3 := Step(cs, s2, EventChannel(j, ch, Sinks.Deposit(Pending(net, h, j, ch))));
    assert net.homes[h := s2][h := s3] == net.homes[h := s3];
  }

  /** Sent, and taken by the client `c` at the other end after all that was queued before it. */
  function Exchange(net: Net, call: NetAction, c: nat, h: nat, j: nat, ch: nat): seq<NetAction>
    requires h < |net.homes| && j < |net.homes[h].objects| && ch < |net.homes[h].objects[j].events.chans|
  {
    Sends(net, call, h, j, ch) + Handles(c, h, j, ch, Waiting(net, h, j, ch) + 1)
  }

  lemma ExchangeBrings(cs: Scheme, net: Net, call: NetAction, ask: Action, clients: seq<Client>,
                       c: nat, h: nat, j: nat, ch: nat, event: Event)
    requires h < |net.homes| && j < |net.homes[h].objects| && ch < |net.homes[h].objects[j].events.chans|
    requires NetStep(cs, net, call) == Net(net.homes[h := Step(cs, net.homes[h], ask)], clients)
    requires c < |clients| && net.homes[h].objects[j].ctx.peerId == clients[c].signer.id
    requires Brought(net.homes[h], Passed(cs, net.homes[h], ask, j, ch), j, ch, event)
    ensures var sink, passed := net.homes[h].objects[j].events, Passed(cs, net.homes[h], ask, j, ch);
            var all := sink.chans[ch].queue + [Sinks.Item(|sink.calls|, event)];
            && passed.objects[j].events.chans[ch].queue == all
            && NetRun(cs, net, Exchange(net, call, c, h, j, ch)) ==
               Net(net.homes[h := Taken(passed, j, ch, |all|)],
                   clients[c := clients[c].(relations := clients[c].relations + StoredAll(all))])
  {
    var passed := Passed(cs, net.homes[h], ask, j, ch);
    var sent, n := Net(net.homes[h := passed], clients), Waiting(net, h, j, ch) + 1;
    SendsPass(cs, net, call, ask, clients, h, j, ch);
    RunConcat(cs, net, Sends(net, call, h, j, ch), Handles(c, h, j, ch, n));
    HandlesTake(cs, sent, c, h, j, ch, n);
    var all := passed.objects[j].events.chans[ch].queue;
    assert all[..n] == all;
    assert net.homes[h := passed][h := Taken(passed, j, ch, n)] == net.homes[h := Taken(passed, j, ch, n)];
  }

  lemma StoredAllSnoc(ms: seq<Sinks.Message<Event>>, m: Sinks.Message<Event>)
    ensures StoredAll(ms + [m]) == StoredAll(ms) + Stored(m)
  {
    assert (ms + [m])[..|ms|] == ms;
  }

  // ------------------------------------------------------------------ the whole pairing

  /** `initiate_relation` of `a` reaches the handler of `b`. */
  lemma RequestReaches(cs: Scheme, net: Net, a: nat, b: nat, relationType: Blob, h: nat, j: nat, ch: nat)
    requires cs.Correct() && a < |net.clients| && b < |net.clients| && h < |net.homes|
    requires net.clients[a].signer.Valid(cs) && Listening(net.homes[h], net.clients[b].signer.id, j, ch)
    requires net.homes[h].objects[j].ctx.peerId == net.clients[b].signer.id
    ensures var sa, sb := net.clients[a].signer, net.clients[b].signer;
            var half, sink := NewHalf(cs, relationType, sb.id, sa), net.homes[h].objects[j].events;
            var passed := Passed(cs, net.homes[h], Invitation(cs, net.clients[a], relationType, sb.id), j, ch);
            var all := sink.chans[ch].queue + [Sinks.Item(|sink.calls|, PairingRequest(half))];
            && Brought(net.homes[h], passed, j, ch, PairingRequest(half))
            && passed.objects[j].events.chans[ch].queue == all
            && NetRun(cs, net, Exchange(net, Initiate(a, relationType, sb.id, h), b, h, j, ch)) ==
               Net(net.homes[h := Taken(passed, j, ch, |all|)],
                   net.clients[b := net.clients[b].(relations := net.clients[b].relations + StoredAll(all))])
  {
    var sa, sb := net.clients[a].signer, net.clients[b].signer;
    NewHalfValid(cs, relationType, sb.id, sa);
    var half := NewHalf(cs, relationType, sb.id, sa);
    RequestPasses(cs, net.homes[h], ContextOf(net.clients[a]), half, j, ch);
    ExchangeBrings(cs, net, Initiate(a, relationType, sb.id, h), Invitation(cs, net.clients[a], relationType, sb.id),
                   net.clients, b, h, j, ch, PairingRequest(half));
  }

  /** The clients once `b` has an acceptance of `p` at home `h` under way. */
  function WithAcceptance(net: Net, b: nat, h: nat, p: Proof): seq<Client>
    requires b < |net.clients| && h < |net.homes|
  {
    var c := net.clients[b];
    net.clients[b := c.(accepting := c.accepting + [Accepting(h, |net.homes[h].tasks|, p, false)])]
  }

  lemma AcceptCalls(cs: Scheme, net: Net, b: nat, half: HalfProof, h: nat, p: Proof)
    requires b < |net.clients| && h < |net.homes| && ValidContext(cs, ContextOf(net.clients[b]))
    requires SignRemainingHalf(cs, half, net.clients[b].signer) == Some(p)
    ensures NetStep(cs, net, Accept(b, half, h)) ==
            Net(net.homes[h := Step(cs, net.homes[h], Ask(ContextOf(net.clients[b]), PairResponse(p)))],
                WithAcceptance(net, b, h, p))
  {
  }

  lemma AcceptReturns(cs: Scheme, net: Net, b: nat, k: nat, p: Proof)
    requires b < |net.clients| && k < |net.clients[b].accepting|
    requires var rec := net.clients[b].accepting[k];
             && !rec.done && rec.proof == p && rec.home < |net.homes| && rec.task < |net.homes[rec.home].tasks|
             && net.homes[rec.home].tasks[rec.task] == Finished(true)
    ensures var net' := NetStep(cs, net, Accepted(b, k));
            && |net'.clients| == |net.clients| && net'.clients[b].relations == net.clients[b].relations + [p]
            && net'.homes == net.homes
            && forall c :: 0 <= c < |net.clients| && c != b ==> net'.clients[c] == net.clients[c]
  {
  }

  /** `accept_relation` of `b` reaches the handler of `a`. */
  lemma ResponseReaches(cs: Scheme, net: Net, a: nat, b: nat, half: HalfProof, p: Proof, h: nat, j: nat, ch: nat)
    requires a < |net.clients| && b < |net.clients| && a != b && h < |net.homes|
    requires var sa, sb, me, s := net.clients[a].signer, net.clients[b].signer, ContextOf(net.clients[b]), net.homes[h];
             && SignRemainingHalf(cs, half, sb) == Some(p) && PeerId(p, sb.id) == Some(sa.id) && ValidContext(cs, me)
             && Listening(s, sa.id, j, ch) && s.objects[j].ctx.peerId == sa.id
             && ProofHolds(cs, p, me, Some(s.hosted[sa.id]))
    ensures var mid := NetRun(cs, net, Exchange(net, Accept(b, half, h), a, h, j, ch));
            var clients := WithAcceptance(net, b, h, p);
            && |mid.clients| == |clients| && mid.clients[b] == clients[b] && LastRelation(mid.clients[a]) == Some(p)
            && h < |mid.homes| && mid.homes[h].tasks == net.homes[h].tasks + [Finished(true)]
  {
    var s, me := net.homes[h], ContextOf(net.clients[b]);
    ResponsePasses(cs, s, me, p, net.clients[a].signer.id, j, ch);
    AcceptCalls(cs, net, b, half, h, p);
    ExchangeBrings(cs, net, Accept(b, half, h), Ask(me, PairResponse(p)), WithAcceptance(net, b, h, p), a, h, j, ch,
        PairingResponse(p));
    StoredAllSnoc(s.objects[j].events.chans[ch].queue, Sinks.Item(|s.objects[j].events.calls|, PairingResponse(p)));
  }

  lemma ResponseCompletes(cs: Scheme, net: Net, a: nat, b: nat, half: HalfProof, p: Proof, h: nat, j: nat, ch: nat)
    requires a < |net.clients| && b < |net.clients| && a != b && h < |net.homes|
    requires var sa, sb, me, s := net.clients[a].signer, net.clients[b].signer, ContextOf(net.clients[b]), net.homes[h];
             && SignRemainingHalf(cs, half, sb) == Some(p) && PeerId(p, sb.id) == Some(sa.id) && ValidContext(cs, me)
             && Listening(s, sa.id, j, ch) && s.objects[j].ctx.peerId == sa.id
             && ProofHolds(cs, p, me, Some(s.hosted[sa.id]))
    ensures var mid := NetRun(cs, net, Exchange(net, Accept(b, half, h), a, h, j, ch));
            var net' := NetStep(cs, mid, Accepted(b, |net.clients[b].accepting|));
            |net'.clients| == |net.clients| && LastRelation(net'.clients[a]) == LastRelation(net'.clients[b]) == Some(p)
  {
    ResponseReaches(cs, net, a, b, half, p, h, j, ch);
    AcceptReturns(cs, NetRun(cs, net, Exchange(net, Accept(b, half, h), a, h, j, ch)), b,
        |net.clients[b].accepting|, p);
  }

  /** The stream of one client is as it was when another client's stream has been served. */
  lemma ListeningStays(s: Server, s1: Server, s2: Server, id: ProfileId, j: nat, ch: nat, j': nat, ch': nat,
                       event: Event, n: nat)
    requires Listening(s, id, j, ch) && s.objects[j].ctx.peerId == id && Brought(s, s1, j', ch', event) && j' != j
    requires ch' < |s1.objects[j'].events.chans| && n <= |s1.objects[j'].events.chans[ch'].queue|
        && s2 == Taken(s1, j', ch', n)
    ensures Listening(s2, id, j, ch) && s2.objects[j] == s.objects[j] && s2.hosted == s.hosted
  {
  }

  /** From every sound state of the network in which both clients are hosted and listening, with
      whatever is queued for them: the invitation of `a` is the last thing the handler of `b` has
      then received, and after `b` has accepted it, the last relation of each is one and the same
      proof, canonical and valid. */
  lemma UndisturbedPairingCompletes(cs: Scheme, net: Net, a: nat, b: nat, relationType: Blob,
                                    ha: nat, ja: nat, cha: nat, hb: nat, jb: nat, chb: nat)
    requires cs.Correct() && cs.CollisionFree() && NetSound(cs, net)
    requires a < |net.clients| && b < |net.clients| && net.clients[a].signer.id != net.clients[b].signer.id
    requires ha < |net.homes| && Listening(net.homes[ha], net.clients[a].signer.id, ja, cha)
    requires hb < |net.homes| && Listening(net.homes[hb], net.clients[b].signer.id, jb, chb)
    ensures var (sa, sb) := (net.clients[a].signer, net.clients[b].signer);
            var half := NewHalf(cs, relationType, sb.id, sa);
            var p := SignRemainingHalf(cs, half, sb);
            var net1 := NetRun(cs, net, Exchange(net, Initiate(a, relationType, sb.id, hb), b, hb, jb, chb));
            && p.Some? && Less(p.value.aId, p.value.bId)
            && ValidProof(cs, p.value, sa.id, sa.publicKey, sb.id, sb.publicKey)
            && |net1.clients| == |net.clients| && |net1.homes| == |net.homes|
            && LastReceived(net1.homes[hb], jb, chb) == Some(PairingRequest(half))
            && Listening(net1.homes[ha], sa.id, ja, cha)
            && var mid := NetRun(cs, net1, Exchange(net1, Accept(b, half, ha), a, ha, ja, cha));
               var net2 := NetStep(cs, mid, Accepted(b, |net1.clients[b].accepting|));
            && |net2.clients| == |net.clients|
            && LastRelation(net2.clients[a]) == LastRelation(net2.clients[b]) == p
  {
    var sa, sb := net.clients[a].signer, net.clients[b].signer;
    PartiesSound(cs, net, a, ha, ja, cha);
    PartiesSound(cs, net, b, hb, jb, chb);
    PairingIsCanonical(cs, relationType, sa, sb);
    var half := NewHalf(cs, relationType, sb.id, sa);
    var p := SignRemainingHalf(cs, half, sb).value;
    RequestArrives(cs, net, a, b, relationType, ha, ja, cha, hb, jb, chb);
    var net1 := NetRun(cs, net, Exchange(net, Initiate(a, relationType, sb.id, hb), b, hb, jb, chb));
    assert ProofHolds(cs, p, ContextOf(net1.clients[b]), Some(net1.homes[ha].hosted[sa.id]));
    ResponseCompletes(cs, net1, a, b, half, p, ha, ja, cha);
  }

  /** What the state of a listening client is like. */
  lemma PartiesSound(cs: Scheme, net: Net, c: nat, h: nat, j: nat, ch: nat)
    requires cs.CollisionFree() && NetSound(cs, net) && c < |net.clients| && h < |net.homes|
    requires Listening(net.homes[h], net.clients[c].signer.id, j, ch)
    ensures var s, me := net.homes[h], net.clients[c].signer;
            && me.Valid(cs) && s.objects[j].ctx.peerId == me.id
            && s.hosted[me.id].profile.id == me.id && s.hosted[me.id].profile.publicKey == me.publicKey
  {
    assert ClientSound(cs, net.clients[c]) && Invariant(cs, net.homes[h]);
    assert ProfileUnder(cs, net.homes[h].hosted[net.clients[c].signer.id], net.clients[c].signer.id);
  }

  /** The first half: `b` has the invitation, and nothing has changed for `a`. */
  lemma RequestArrives(cs: Scheme, net: Net, a: nat, b: nat, relationType: Blob,
                       ha: nat, ja: nat, cha: nat, hb: nat, jb: nat, chb: nat)
    requires cs.Correct() && a < |net.clients| && b < |net.clients| && ha < |net.homes| && hb < |net.homes|
    requires net.clients[a].signer.Valid(cs) && net.clients[a].signer.id != net.clients[b].signer.id
    requires Listening(net.homes[ha], net.clients[a].signer.id, ja, cha)
    requires Listening(net.homes[hb], net.clients[b].signer.id, jb, chb)
    requires net.homes[ha].objects[ja].ctx.peerId == net.clients[a].signer.id
    requires net.homes[hb].objects[jb].ctx.peerId == net.clients[b].signer.id
    ensures var sa, sb := net.clients[a].signer, net.clients[b].signer;
            var net1 := NetRun(cs, net, Exchange(net, Initiate(a, relationType, sb.id, hb), b, hb, jb, chb));
            && |net1.clients| == |net.clients| && |net1.homes| == |net.homes|
            && net1.clients[a] == net.clients[a] && net1.clients[b].signer == sb
            && LastReceived(net1.homes[hb], jb, chb) == Some(PairingRequest(NewHalf(cs, relationType, sb.id, sa)))
            && Listening(net1.homes[ha], sa.id, ja, cha) && net1.homes[ha].objects[ja] == net.homes[ha].objects[ja]
            && net1.homes[ha].hosted == net.homes[ha].hosted
  {
    var sa, sb := net.clients[a].signer, net.clients[b].signer;
    var half := NewHalf(cs, relationType, sb.id, sa);
    RequestReaches(cs, net, a, b, relationType, hb, jb, chb);
    var passed := Passed(cs, net.homes[hb], Invitation(cs, net.clients[a], relationType, sb.id), jb, chb);
    var queue := passed.objects[jb].events.chans[chb].queue;
    TakenLast(passed, jb, chb);
    if ha == hb {
      ListeningStays(net.homes[ha], passed, Taken(passed, jb, chb, |queue|), sa.id, ja, cha, jb, chb,
          PairingRequest(half), |queue|);
    }
  }

  lemma TakenLast(s: Server, j: nat, ch: nat)
    requires j < |s.objects| && ch < |s.objects[j].events.chans| && s.objects[j].events.chans[ch].queue != []
    ensures var q := s.objects[j].events.chans[ch].queue;
            q[|q| - 1].Item? ==> LastReceived(Taken(s, j, ch, |q|), j, ch) == Some(q[|q| - 1].value)
  {
    var c := s.objects[j].events.chans[ch];
    assert c.queue[..|c.queue|] == c.queue;
  }

  function LastReceived(s: Server, j: nat, ch: nat): Option<Event> {
    if j < |s.objects| && ch < |s.objects[j].events.chans| && s.objects[j].events.chans[ch].received != [] then
      var received := s.objects[j].events.chans[ch].received;
      if received[|received| - 1].Item? then Some(received[|received| - 1].value) else None
    else None
  }

  function LastRelation(c: Client): Option<Proof> {
    if c.relations == [] then None else Some(c.relations[|c.relations| - 1])
  }

  // ------------------------------------------------------------------ an initiator who is offline

  /** A response to a hosted initiator who is not online is dropped, and the call returns well: from
      every such state the acceptor ends up with a relation that the initiator never hears of. */
  lemma OfflineInitiatorNeverHears(cs: Scheme, net: Net, a: nat, b: nat, relationType: Blob, h: nat)
    requires cs.Correct() && cs.CollisionFree() && NetSound(cs, net)
    requires a < |net.clients| && b < |net.clients| && net.clients[a].signer.id != net.clients[b].signer.id
    requires h < |net.homes| && net.clients[a].signer.id in net.homes[h].hosted
    requires LiveSession(net.homes[h], net.clients[a].signer.id).None?
    ensures var half := NewHalf(cs, relationType, net.clients[b].signer.id, net.clients[a].signer);
            var p := SignRemainingHalf(cs, half, net.clients[b].signer);
            var accepted := NetStep(cs, net, Accept(b, half, h));
            var polled := NetStep(cs, accepted, AtHome(h, Poll(|net.homes[h].tasks|)));
            var net' := NetStep(cs, polled, Accepted(b, |net.clients[b].accepting|));
            && p.Some? && |net'.clients| == |net.clients| && |net'.homes| == |net.homes|
            && net'.clients[b].relations == net.clients[b].relations + [p.value]
            && net'.clients[a] == net.clients[a] && net'.homes[h].objects == net.homes[h].objects
  {
    var sa, sb, s, me := net.clients[a].signer, net.clients[b].signer, net.homes[h], ContextOf(net.clients[b]);
    assert ClientSound(cs, net.clients[a]) && ClientSound(cs, net.clients[b]) && Invariant(cs, s);
    PairingIsCanonical(cs, relationType, sa, sb);
    var half := NewHalf(cs, relationType, sb.id, sa);
    var p := SignRemainingHalf(cs, half, sb).value;
    assert ProfileUnder(cs, s.hosted[sa.id], sa.id);
    OfflinePoll(cs, s, me, p, sa.id);
    AcceptCalls(cs, net, b, half, h, p);
    var s1, clients := Step(cs, s, Ask(me, PairResponse(p))), WithAcceptance(net, b, h, p);
    var polled := Net(net.homes[h := Step(cs, s1, Poll(|s.tasks|))], clients);
    assert net.homes[h := s1][h := polled.homes[h]] == polled.homes;
    assert NetStep(cs, Net(net.homes[h := s1], clients), AtHome(h, Poll(|s.tasks|))) == polled;
    AcceptReturns(cs, polled, b, |net.clients[b].accepting|, p);
  }

  lemma OfflinePoll(cs: Scheme, s: Server, ctx: Context, p: Proof, to: ProfileId)
    requires to in s.hosted && LiveSession(s, to).None? && ValidContext(cs, ctx)
    requires PeerId(p, ctx.peerId) == Some(to) && ProofHolds(cs, p, ctx, Some(s.hosted[to]))
    ensures var s' := Step(cs, Step(cs, s, Ask(ctx, PairResponse(p))), Poll(|s.tasks|));
            s'.tasks == s.tasks + [Finished(true)] && s'.objects == s.objects
  {
    var s1 := AddTask(s, ResponseTask(ctx, p, to, Some(s.hosted[to])));
    assert Step(cs, s, Ask(ctx, PairResponse(p))) == s1;
    assert Finish(s1, |s.tasks|, true).tasks == s.tasks + [Finished(true)];
  }
}
