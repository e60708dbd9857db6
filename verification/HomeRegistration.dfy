/** Registering and then logging in, with anything happening between the calls and the polls. */
module HomeRegistration {
  import opened Prelude
  import opened Relation
  import opened HomeServer
  import opened HomeInvariants
  import opened HomeStores

  /** What `register` appends is a proof between persona and home that validates. */
  lemma RegisterAppendsValidProof(cs: Scheme, home: Signer, ctx: Context, own: OwnProfile, half: HalfProof)
    requires cs.Correct() && cs.CollisionFree() && home.Valid(cs) && ValidContext(cs, ctx)
    requires RegisterCheck(cs, home, ctx, own, half).Some?
    ensures var own' := RegisterCheck(cs, home, ctx, own, half).value;
            && own'.profile.id == own.profile.id == ctx.peerId && own'.profile.publicKey == ctx.peerKey
            && own'.privData == own.privData && own'.profile.facet.Persona? && own.profile.facet.Persona?
            && own'.profile.facet.data == own.profile.facet.data
            && var homes := own'.profile.facet.homes;
            && |homes| == |own.profile.facet.homes| + 1 && homes[..|homes| - 1] == own.profile.facet.homes
            && var proof := homes[|homes| - 1];
            && proof.relationType == HOSTED_ON_HOME
            && PeerId(proof, home.id) == Some(ctx.peerId)
            && ValidProof(cs, proof, ctx.peerId, ctx.peerKey, home.id, home.publicKey)
            && ValidProof(cs, proof, home.id, home.publicKey, ctx.peerId, ctx.peerKey)
  {
    CountersignedValidates(cs, half, ctx.peerKey, home);
  }

  /** Unregistrations of `id` in a run: those called on a session of `id`. */
  predicate Unregisters(s: Server, a: Action, id: ProfileId) {
    a.OnSession? && a.what.Unregister? && a.session < |s.objects| && s.objects[a.session].ctx.peerId == id
  }

  ghost predicate NoUnregister(cs: Scheme, s: Server, run: seq<Action>, id: ProfileId) {
    forall i :: 0 <= i < |run| ==> !Unregisters(RunFrom(cs, s, run[..i]), run[i], id)
  }

  lemma StepKeepsHosted(cs: Scheme, s: Server, a: Action, id: ProfileId)
    requires StoreInvariant(cs, s) && id in s.hosted && !Unregisters(s, a, id)
    ensures id in Step(cs, s, a).hosted
  {
    match a
    case Ask(ctx, request) => AskFrame(cs, s, ctx, request);
    case OnSession(j, what) => match what { case _ => }
    case Poll(i) => if i < |s.tasks| { PollKeepsId(cs, s, i, id); }
    case _ =>
  }

  lemma PollKeepsId(cs: Scheme, s: Server, i: nat, id: ProfileId)
    requires StoreInvariant(cs, s) && id in s.hosted && i < |s.tasks|
    ensures id in PollStep(cs, s, i).hosted
  {
    match s.tasks[i]
    case RegisterTask(_, _) =>
    case UpdateTask(_, _) =>
    case LoginTask(_, _, _) =>
    case _ => DeliveryFrame(cs, s, i);
  }

  lemma {:induction false} HostedUntilUnregister(cs: Scheme, s: Server, run: seq<Action>, id: ProfileId)
    requires StoreInvariant(cs, s) && id in s.hosted && NoUnregister(cs, s, run, id)
    ensures StoreInvariant(cs, RunFrom(cs, s, run)) && id in RunFrom(cs, s, run).hosted
    ensures RunFrom(cs, s, run).home == s.home
  {
    if run != [] {
      var before := run[..|run| - 1];
      forall i | 0 <= i < |before| ensures !Unregisters(RunFrom(cs, s, before[..i]), before[i], id) {
        assert before[..i] == run[..i] && before[i] == run[i];
      }
      HostedUntilUnregister(cs, s, before, id);
      assert !Unregisters(RunFrom(cs, s, before), run[|run| - 1], id);
      StepKeepsHosted(cs, RunFrom(cs, s, before), run[|run| - 1], id);
      StepKeepsStores(cs, RunFrom(cs, s, before), run[|run| - 1]);
      HomeFixed(cs, RunFrom(cs, s, before), run[|run| - 1]);
    }
  }

  // ------------------------------------------------------------------ futures that wait

  /** The run does not poll future `t`. */
  predicate NotPolled(run: seq<Action>, t: nat) {
    forall i :: 0 <= i < |run| ==> run[i] != Poll(t)
  }

  lemma {:induction false} FutureWaits(cs: Scheme, s: Server, run: seq<Action>, t: nat)
    requires t < |s.tasks| && NotPolled(run, t)
    ensures t < |RunFrom(cs, s, run).tasks| && RunFrom(cs, s, run).tasks[t] == s.tasks[t]
    ensures RunFrom(cs, s, run).home == s.home
  {
    if run != [] {
      var before := run[..|run| - 1];
      FutureWaits(cs, s, before, t);
      TaskStable(cs, RunFrom(cs, s, before), run[|run| - 1], t);
      HomeFixed(cs, RunFrom(cs, s, before), run[|run| - 1]);
    }
  }

  lemma {:induction false} RunFromKeepsStores(cs: Scheme, s: Server, run: seq<Action>)
    requires StoreInvariant(cs, s)
    ensures StoreInvariant(cs, RunFrom(cs, s, run))
  {
    if run != [] {
      RunFromKeepsStores(cs, s, run[..|run| - 1]);
      StepKeepsStores(cs, RunFrom(cs, s, run[..|run| - 1]), run[|run| - 1]);
    }
  }

  /** A call, anything but the poll of its future, and then that poll. */
  function CallThenPoll(cs: Scheme, s: Server, a: Action, between: seq<Action>): Server {
    Step(cs, RunFrom(cs, Step(cs, s, a), between), Poll(|s.tasks|))
  }

  /** A registration succeeds if and only if its id was free when it was called, and then its poll
      writes the profile with the new home proof into both stores. */
  lemma RegisterTakesEffect(cs: Scheme, s: Server, ctx: Context, own: OwnProfile, half: HalfProof, between: seq<Action>)
    requires ValidContext(cs, ctx) && RegisterCheck(cs, s.home, ctx, own, half).Some? && NotPolled(between, |s.tasks|)
    ensures var ask, own' := Ask(ctx, Register(own, half)), RegisterCheck(cs, s.home, ctx, own, half).value;
            var s2, s3 := RunFrom(cs, Step(cs, s, ask), between), CallThenPoll(cs, s, ask, between);
            && |s3.tasks| > |s.tasks| && s3.tasks[|s.tasks|] == Finished(own.profile.id !in s.hosted)
            && s3.home == s.home
            && (own.profile.id !in s.hosted ==>
                  s3.hosted == s2.hosted[own.profile.id := own']
                      && s3.public == s2.public[own.profile.id := own'.profile])
  {
    var ask, own' := Ask(ctx, Register(own, half)), RegisterCheck(cs, s.home, ctx, own, half).value;
    var s1 := AddTask(s, RegisterTask(own', own.profile.id !in s.hosted));
    assert Step(cs, s, ask) == s1;
    FutureWaits(cs, s1, between, |s.tasks|);
  }

  /** A login with a home proof that names the connecting persona, hosted at the call, opens a
      session of it when polled. */
  lemma LoginTakesEffect(cs: Scheme, s: Server, ctx: Context, proof: Proof, between: seq<Action>)
    requires ValidContext(cs, ctx) && ctx.peerId in s.hosted && NotPolled(between, |s.tasks|)
    requires proof.relationType == HOSTED_ON_HOME && PeerId(proof, s.home.id) == Some(ctx.peerId)
    ensures var ask := Ask(ctx, Login(proof));
            var s2, s3 := RunFrom(cs, Step(cs, s, ask), between), CallThenPoll(cs, s, ask, between);
            && |s3.tasks| > |s.tasks| && s3.tasks[|s.tasks|] == Finished(true)
            && s3.objects == s2.objects + [NewSession(ctx)] && ctx.peerId in s3.sessions
  {
    var ask := Ask(ctx, Login(proof));
    var s1 := AddTask(s, LoginTask(ctx, ctx.peerId, true));
    assert Step(cs, s, ask) == s1;
    FutureWaits(cs, s1, between, |s.tasks|);
  }

  /** The home proof of the registered profile that was appended last. */
  function LatestHome(own: OwnProfile): Option<Proof> {
    var facet := own.profile.facet;
    if facet.Persona? && facet.homes != [] then Some(facet.homes[|facet.homes| - 1]) else None
  }

  /** Whenever a registration succeeds, whatever happened between its call and its poll, and through
      any run without an unregistration of that id, a login with the appended proof succeeds and
      opens a session of the persona, whatever happens between its own call and poll. */
  lemma LoginAfterRegister(cs: Scheme, s: Server, ctx: Context, own: OwnProfile, half: HalfProof,
                           between: seq<Action>, later: seq<Action>, waiting: seq<Action>)
    requires cs.Correct() && cs.CollisionFree() && s.home.Valid(cs) && ValidContext(cs, ctx) && StoreInvariant(cs, s)
    requires RegisterCheck(cs, s.home, ctx, own, half).Some? && own.profile.id !in s.hosted
    requires var registered := CallThenPoll(cs, s, Ask(ctx, Register(own, half)), between);
             && NotPolled(between, |s.tasks|) && NoUnregister(cs, registered, later, ctx.peerId)
             && NotPolled(waiting, |RunFrom(cs, registered, later).tasks|)
    ensures var proof := LatestHome(RegisterCheck(cs, s.home, ctx, own, half).value).value;
            var s1 := RunFrom(cs, CallThenPoll(cs, s, Ask(ctx, Register(own, half)), between), later);
            var s2, s3 := RunFrom(cs, Step(cs, s1, Ask(ctx, Login(proof))), waiting),
                          CallThenPoll(cs, s1, Ask(ctx, Login(proof)), waiting);
            && |s3.tasks| > |s1.tasks| && s3.tasks[|s1.tasks|] == Finished(true)
            && s3.objects == s2.objects + [NewSession(ctx)] && ctx.peerId in s3.sessions
  {
    var registered := CallThenPoll(cs, s, Ask(ctx, Register(own, half)), between);
    RegisteredStays(cs, s, ctx, own, half, between, later);
    RegisterAppendsValidProof(cs, s.home, ctx, own, half);
    var proof := LatestHome(RegisterCheck(cs, s.home, ctx, own, half).value).value;
    LoginTakesEffect(cs, RunFrom(cs, registered, later), ctx, proof, waiting);
  }

  lemma RegisteredStays(cs: Scheme, s: Server, ctx: Context, own: OwnProfile, half: HalfProof,
                        between: seq<Action>, later: seq<Action>)
    requires ValidContext(cs, ctx) && StoreInvariant(cs, s) && NotPolled(between, |s.tasks|)
    requires RegisterCheck(cs, s.home, ctx, own, half).Some? && own.profile.id !in s.hosted
    requires NoUnregister(cs, CallThenPoll(cs, s, Ask(ctx, Register(own, half)), between), later, ctx.peerId)
    ensures var s' := RunFrom(cs, CallThenPoll(cs, s, Ask(ctx, Register(own, half)), between), later);
            ctx.peerId in s'.hosted && s'.home == s.home
  {
    var ask := Ask(ctx, Register(own, half));
    RegisterTakesEffect(cs, s, ctx, own, half, between);
    StepKeepsStores(cs, s, ask);
    RunFromKeepsStores(cs, Step(cs, s, ask), between);
    StepKeepsStores(cs, RunFrom(cs, Step(cs, s, ask), between), Poll(|s.tasks|));
    HostedUntilUnregister(cs, CallThenPoll(cs, s, ask, between), later, ctx.peerId);
  }
}
