/** The stores and the session map over every run of the home server, with no assumption on what
    clients send: agreement of the two stores, and what the log of effects says is in them. */
module HomeStores {
  import opened Prelude
  import opened Relation
  import opened HomeServer
  import opened HomeInvariants

  // ------------------------------------------------------------------ what the log says

  /** The profile written by the latest registration or update, unless unregistered since. */
  function CurrentProfile(log: seq<Entry>, id: ProfileId): Option<OwnProfile> {
    if log == [] then None else
    var before := CurrentProfile(log[..|log| - 1], id);
    match log[|log| - 1]
    case Registered(own) => if own.profile.id == id then Some(own) else before
    case Updated(own) => if own.profile.id == id then Some(own) else before
    case Unregistered(gone, _) => if gone == id then None else before
    case _ => before
  }

  /** The first session logged in for `id` since its latest drop or unregistration. */
  function CurrentSession(log: seq<Entry>, id: ProfileId): Option<nat> {
    if log == [] then None else
    var before := CurrentSession(log[..|log| - 1], id);
    match log[|log| - 1]
    case LoggedIn(named, j) => if named == id && before.None? then Some(j) else before
    case Dropped(gone) => if gone == id then None else before
    case Unregistered(gone, _) => if gone == id then None else before
    case _ => before
  }

  ghost predicate LogExplains(s: Server) {
    && (forall id :: Get(s.hosted, id) == CurrentProfile(s.log, id))
    && (forall id :: Get(s.sessions, id) == CurrentSession(s.log, id))
  }

  // ------------------------------------------------------------------ invariant

  predicate StoreTaskSound(cs: Scheme, t: Task) {
    match t
    case RegisterTask(own, _) => cs.matches(own.profile.publicKey, own.profile.id)
    case UpdateTask(own, _) => cs.matches(own.profile.publicKey, own.profile.id)
    case LoginTask(ctx, _, _) => ValidContext(cs, ctx)
    case _ => true
  }

  ghost predicate StoreTasksSound(cs: Scheme, tasks: seq<Task>) {
    forall i :: 0 <= i < |tasks| ==> StoreTaskSound(cs, tasks[i])
  }

  ghost predicate ContextsValid(cs: Scheme, objects: seq<Session>) {
    forall j :: 0 <= j < |objects| ==> ValidContext(cs, objects[j].ctx)
  }

  /** An entry whose session is gone was made by a login on another profile's connection. */
  ghost predicate EntriesTraceable(sessions: map<ProfileId, nat>, objects: seq<Session>) {
    forall id :: id in sessions ==>
      sessions[id] < |objects| && (objects[sessions[id]].live || objects[sessions[id]].ctx.peerId != id)
  }

  ghost predicate StoreInvariant(cs: Scheme, s: Server) {
    && StoresAgree(cs, s) && StoreTasksSound(cs, s.tasks) && ContextsValid(cs, s.objects)
    && EntriesTraceable(s.sessions, s.objects) && LogExplains(s)
  }

  // ------------------------------------------------------------------ steps

  /** `s'` differs from `s` only in sinks, tasks and calls. */
  predicate SameStores(s: Server, s': Server) {
    && s'.home == s.home && s'.public == s.public && s'.hosted == s.hosted
    && s'.sessions == s.sessions && s'.log == s.log
    && |s'.objects| == |s.objects|
    && forall j :: 0 <= j < |s.objects| ==>
         s'.objects[j].ctx == s.objects[j].ctx && s'.objects[j].live == s.objects[j].live
  }

  lemma SameStoresKeeps(cs: Scheme, s: Server, s': Server)
    requires StoreInvariant(cs, s) && SameStores(s, s') && StoreTasksSound(cs, s'.tasks)
    ensures StoreInvariant(cs, s')
  {
  }

  lemma AskFrame(cs: Scheme, s: Server, ctx: Context, request: Request)
    requires StoreTasksSound(cs, s.tasks)
    ensures SameStores(s, AskStep(cs, s, ctx, request))
    ensures StoreTasksSound(cs, AskStep(cs, s, ctx, request).tasks)
  {
  }

  /** Appending an entry changes the account of the id it names only. */
  lemma LogGrows(s: Server, s': Server, entry: Entry)
    requires LogExplains(s) && s'.log == s.log + [entry]
    requires match entry {
               case Registered(own) => s'.hosted == s.hosted[own.profile.id := own] && s'.sessions == s.sessions
               case Updated(own) => s'.hosted == s.hosted[own.profile.id := own] && s'.sessions == s.sessions
               case Unregistered(id, _) => s'.hosted == s.hosted - {id} && s'.sessions == s.sessions - {id}
               case LoggedIn(id, j) => s'.hosted == s.hosted &&
                   s'.sessions == if id in s.sessions then s.sessions else s.sessions[id := j]
               case Dropped(id) => s'.hosted == s.hosted && s'.sessions == s.sessions - {id}
             }
    ensures LogExplains(s')
  {
    assert s'.log[..|s'.log| - 1] == s.log;
    forall id ensures Get(s'.hosted, id) == CurrentProfile(s'.log, id) {
      assert Get(s.hosted, id) == CurrentProfile(s.log, id);
    }
    forall id ensures Get(s'.sessions, id) == CurrentSession(s'.log, id) {
      assert Get(s.sessions, id) == CurrentSession(s.log, id);
    }
  }

  lemma WriteKeeps(cs: Scheme, s: Server, own: OwnProfile, entry: Entry)
    requires StoreInvariant(cs, s) && cs.matches(own.profile.publicKey, own.profile.id)
    requires entry in {Registered(own), Updated(own)}
    ensures StoreInvariant(cs, WriteProfile(s, own, entry))
  {
    LogGrows(s, WriteProfile(s, own, entry), entry);
  }

  lemma OpenKeeps(cs: Scheme, s: Server, ctx: Context, named: ProfileId)
    requires StoreInvariant(cs, s) && ValidContext(cs, ctx)
    ensures StoreInvariant(cs, OpenSession(s, ctx, named))
  {
    LogGrows(s, OpenSession(s, ctx, named), LoggedIn(named, |s.objects|));
  }

  lemma PushCallFrame(s: Server, c: nat)
    requires c < |s.calls|
    ensures SameStores(s, PushCall(s, c)) && PushCall(s, c).tasks == s.tasks
  {
  }

  lemma PushEventFrame(s: Server, to: ProfileId, event: Event)
    ensures SameStores(s, PushEvent(s, to, event)) && PushEvent(s, to, event).tasks == s.tasks
  {
  }

  lemma DeliveryFrame(cs: Scheme, s: Server, i: nat)
    requires i < |s.tasks|
    requires s.tasks[i].RequestTask? || s.tasks[i].ResponseTask? || s.tasks[i].CallTask? || s.tasks[i].Finished?
    ensures var s' := PollStep(cs, s, i);
            && SameStores(s, s') && |s'.tasks| == |s.tasks|
            && (s'.tasks == s.tasks || s'.tasks == s.tasks[i := Finished(true)]
                || s'.tasks == s.tasks[i := Finished(false)])
  {
    var f := Finish(s, i, true);
    match s.tasks[i]
    case RequestTask(half, hosted) => PushEventFrame(f, half.peerId, PairingRequest(half));
    case ResponseTask(ctx, relation, to, stored) => PushEventFrame(f, to, PairingResponse(relation));
    case CallTask(c, stored) => if c < |s.calls| { PushCallFrame(f, c); }
    case Finished(_) =>
  }

  lemma PollKeepsStores(cs: Scheme, s: Server, i: nat)
    requires StoreInvariant(cs, s) && i < |s.tasks|
    ensures StoreInvariant(cs, PollStep(cs, s, i))
  {
    assert StoreTaskSound(cs, s.tasks[i]);
    var f := Finish(s, i, true);
    SameStoresKeeps(cs, s, f);
    SameStoresKeeps(cs, s, Finish(s, i, false));
    match s.tasks[i]
    case RegisterTask(own, free) => WriteKeeps(cs, f, own, Registered(own));
    case UpdateTask(own, found) => WriteKeeps(cs, f, own, Updated(own));
    case LoginTask(ctx, named, found) => OpenKeeps(cs, f, ctx, named);
    case _ =>
      DeliveryFrame(cs, s, i);
      SameStoresKeeps(cs, s, PollStep(cs, s, i));
  }

  lemma UnregisterKeepsStores(cs: Scheme, s: Server, id: ProfileId)
    requires StoreInvariant(cs, s)
    ensures StoreInvariant(cs, DoUnregister(s, id))
  {
    LogGrows(s, DoUnregister(s, id), Unregistered(id, id in s.public && id in s.hosted));
  }

  lemma DropKeepsStores(cs: Scheme, s: Server, j: nat)
    requires StoreInvariant(cs, s) && j < |s.objects|
    ensures StoreInvariant(cs, DropSession(s, j))
  {
    LogGrows(s, DropSession(s, j), Dropped(s.objects[j].ctx.peerId));
  }

  lemma SessionKeepsStores(cs: Scheme, s: Server, j: nat, what: SessionRequest)
    requires StoreInvariant(cs, s)
    ensures StoreInvariant(cs, SessionStep(s, j, what))
  {
    if j < |s.objects| && s.objects[j].live {
      match what
      case Unregister => UnregisterKeepsStores(cs, s, s.objects[j].ctx.peerId);
      case Drop => DropKeepsStores(cs, s, j);
      case _ => SameStoresKeeps(cs, s, SessionStep(s, j, what));
    }
  }

  /** Streams and calls leave the stores and the futures alone. */
  lemma StreamFrame(cs: Scheme, s: Server, a: Action)
    requires a.EventChannel? || a.AppChannel? || a.OnCall?
    ensures SameStores(s, Step(cs, s, a)) && Step(cs, s, a).tasks == s.tasks
  {
    match a
    case OnCall(c, step) => CallFrame(s, c, step);
    case _ =>
  }

  lemma CallFrame(s: Server, c: nat, step: CallAction)
    ensures SameStores(s, CallStep(s, c, step)) && CallStep(s, c, step).tasks == s.tasks
    ensures CallStep(s, c, step).objects == s.objects
  {
  }

  lemma StepKeepsStores(cs: Scheme, s: Server, a: Action)
    requires StoreInvariant(cs, s)
    ensures StoreInvariant(cs, Step(cs, s, a))
  {
    match a
    case Ask(ctx, request) =>
      AskFrame(cs, s, ctx, request);
      SameStoresKeeps(cs, s, AskStep(cs, s, ctx, request));
    case OnSession(j, what) => SessionKeepsStores(cs, s, j, what);
    case Poll(i) => if i < |s.tasks| { PollKeepsStores(cs, s, i); }
    case _ =>
      StreamFrame(cs, s, a);
      SameStoresKeeps(cs, s, Step(cs, s, a));
  }

  // ------------------------------------------------------------------ every run

  /** In every run: the stores agree, every session entry can be traced, and the log of effects
      determines what is hosted and which session is reachable. */
  lemma {:induction false} StoresInEveryRun(cs: Scheme, home: Signer, run: seq<Action>)
    ensures StoreInvariant(cs, Run(cs, home, run))
  {
    if run != [] {
      StoresInEveryRun(cs, home, run[..|run| - 1]);
      StepKeepsStores(cs, Run(cs, home, run[..|run| - 1]), run[|run| - 1]);
    }
  }

  /** `claim` returns the profile written by the latest effective register or update. */
  lemma ClaimIsLatest(cs: Scheme, home: Signer, run: seq<Action>, ctx: Context, id: ProfileId)
    ensures var s := Run(cs, home, run);
            Claim(s, ctx, id) == if id == ctx.peerId then CurrentProfile(s.log, id) else None
  {
    StoresInEveryRun(cs, home, run);
  }
}
