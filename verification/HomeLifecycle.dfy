/** Registering and unregistering: over every run, with calls and polls interleaved freely, exactly
    when the successful ones alternate. */
module HomeLifecycle {
  import opened Prelude
  import opened Relation
  import opened HomeServer
  import opened HomeInvariants
  import opened HomeStores

  // ------------------------------------------------------------------ the law

  /** The successful registrations (true) and unregistrations (false) of `id`, in order. */
  function Lifecycle(log: seq<Entry>, id: ProfileId): seq<bool> {
    if log == [] then [] else
    Lifecycle(log[..|log| - 1], id) + Milestone(log[|log| - 1], id)
  }

  function Milestone(e: Entry, id: ProfileId): seq<bool> {
    match e
    case Registered(own) => if own.profile.id == id then [true] else []
    case Unregistered(gone, ok) => if gone == id && ok then [false] else []
    case _ => []
  }

  predicate Alternates(life: seq<bool>) {
    forall i :: 0 <= i < |life| ==> life[i] == (i % 2 == 0)
  }

  /** Registrations and unregistrations of `id` alternate, starting with a registration, and the
      profile is hosted exactly when a registration was the last of them. */
  predicate LawfulFor(s: Server, id: ProfileId) {
    var life := Lifecycle(s.log, id);
    Alternates(life) && (|life| % 2 == 1 <==> id in s.hosted)
  }

  ghost predicate Lawful(s: Server) {
    forall id :: LawfulFor(s, id)
  }

  /** The id that a future which passed its check is going to write. */
  function Granted(t: Task): Option<ProfileId> {
    match t
    case RegisterTask(own, true) => Some(own.profile.id)
    case UpdateTask(own, true) => Some(own.profile.id)
    case _ => None
  }

  /** A register future that is polled finds its id free, an update future finds it hosted. */
  predicate Timely(s: Server, a: Action) {
    a.Poll? && a.task < |s.tasks| && Granted(s.tasks[a.task]).Some? ==>
      (s.tasks[a.task].UpdateTask? <==> Granted(s.tasks[a.task]).value in s.hosted)
  }

  // ------------------------------------------------------------------ one step

  lemma LifecycleAppend(log: seq<Entry>, e: Entry, id: ProfileId)
    ensures Lifecycle(log + [e], id) == Lifecycle(log, id) + Milestone(e, id)
  {
    assert (log + [e])[..|log|] == log;
  }

  /** Neither the log nor what is hosted changes in a way that concerns the law. */
  lemma QuietLawful(s: Server, s': Server)
    requires s'.log == s.log && s'.hosted == s.hosted
    ensures Lawful(s) <==> Lawful(s')
  {
    if Lawful(s) { forall id ensures LawfulFor(s', id) { assert LawfulFor(s, id); } }
    if Lawful(s') { forall id ensures LawfulFor(s, id) { assert LawfulFor(s', id); } }
  }

  lemma OtherEntryLawful(s: Server, s': Server, e: Entry)
    requires Lawful(s) && s'.log == s.log + [e] && s'.hosted == s.hosted && (e.LoggedIn? || e.Dropped?)
    ensures Lawful(s')
  {
    forall id ensures LawfulFor(s', id) {
      assert LawfulFor(s, id);
      LifecycleAppend(s.log, e, id);
    }
  }

  lemma AlternatesAppend(life: seq<bool>, next: bool)
    requires Alternates(life)
    ensures Alternates(life + [next]) <==> next == (|life| % 2 == 0)
  {
    assert (life + [next])[|life|] == next;
  }

  lemma WriteLawfulFor(s: Server, own: OwnProfile, entry: Entry, id: ProfileId)
    requires LawfulFor(s, id) && entry in {Registered(own), Updated(own)}
    ensures LawfulFor(WriteProfile(s, own, entry), id) <==>
            (own.profile.id == id ==> (entry.Updated? <==> id in s.hosted))
  {
    LifecycleAppend(s.log, entry, id);
    AlternatesAppend(Lifecycle(s.log, id), true);
  }

  lemma WriteLawful(s: Server, own: OwnProfile, entry: Entry)
    requires Lawful(s) && entry in {Registered(own), Updated(own)}
    ensures Lawful(WriteProfile(s, own, entry)) <==> (entry.Updated? <==> own.profile.id in s.hosted)
  {
    forall id ensures LawfulFor(WriteProfile(s, own, entry), id) <==>
                      (own.profile.id == id ==> (entry.Updated? <==> id in s.hosted)) {
      assert LawfulFor(s, id);
      WriteLawfulFor(s, own, entry, id);
    }
  }

  lemma UnregisterLawfulFor(s: Server, s': Server, id: ProfileId, x: ProfileId)
    requires LawfulFor(s, x) && s'.log == s.log + [Unregistered(id, id in s.hosted)] && s'.hosted == s.hosted - {id}
    ensures LawfulFor(s', x)
  {
    LifecycleAppend(s.log, Unregistered(id, id in s.hosted), x);
    AlternatesAppend(Lifecycle(s.log, x), false);
  }

  lemma UnregisterLawful(cs: Scheme, s: Server, id: ProfileId)
    requires StoreInvariant(cs, s) && Lawful(s)
    ensures Lawful(DoUnregister(s, id))
  {
    forall x ensures LawfulFor(DoUnregister(s, id), x) {
      assert LawfulFor(s, x);
      UnregisterLawfulFor(s, DoUnregister(s, id), id, x);
    }
  }

  lemma PollLawful(cs: Scheme, s: Server, i: nat)
    requires Lawful(s) && i < |s.tasks|
    ensures Lawful(PollStep(cs, s, i)) <==> Timely(s, Poll(i))
  {
    var f, s' := Finish(s, i, true), PollStep(cs, s, i);
    QuietLawful(s, f);
    match s.tasks[i]
    case RegisterTask(own, free) => if free { WriteLawful(f, own, Registered(own)); } else { QuietLawful(s, s'); }
    case UpdateTask(own, found) => if found { WriteLawful(f, own, Updated(own)); } else { QuietLawful(s, s'); }
    case LoginTask(ctx, named, found) =>
      if found { OtherEntryLawful(f, s', LoggedIn(named, |s.objects|)); } else { QuietLawful(s, s'); }
    case _ =>
      DeliveryFrame(cs, s, i);
      QuietLawful(s, s');
  }

  lemma SessionLawful(cs: Scheme, s: Server, j: nat, what: SessionRequest)
    requires StoreInvariant(cs, s) && Lawful(s)
    ensures Lawful(SessionStep(s, j, what))
  {
    if j < |s.objects| && s.objects[j].live {
      match what
      case Unregister => UnregisterLawful(cs, s, s.objects[j].ctx.peerId);
      case Drop => OtherEntryLawful(s, DropSession(s, j), Dropped(s.objects[j].ctx.peerId));
      case _ => QuietLawful(s, SessionStep(s, j, what));
    }
  }

  /** From any lawful state a step leads to a lawful state if and only if it is timely. */
  lemma StepLawfulExactly(cs: Scheme, s: Server, a: Action)
    requires StoreInvariant(cs, s) && Lawful(s)
    ensures Lawful(Step(cs, s, a)) <==> Timely(s, a)
  {
    match a
    case Ask(ctx, request) => QuietLawful(s, AskStep(cs, s, ctx, request));
    case OnSession(j, what) => SessionLawful(cs, s, j, what);
    case Poll(i) => if i < |s.tasks| { PollLawful(cs, s, i); }
    case _ =>
      StreamFrame(cs, s, a);
      QuietLawful(s, Step(cs, s, a));
  }

  // ------------------------------------------------------------------ every run

  ghost predicate AlwaysLawful(cs: Scheme, home: Signer, run: seq<Action>) {
    forall n :: 0 <= n <= |run| ==> Lawful(After(cs, home, run, n))
  }

  ghost predicate AlwaysTimely(cs: Scheme, home: Signer, run: seq<Action>) {
    forall n :: 0 <= n < |run| ==> Timely(After(cs, home, run, n), run[n])
  }

  lemma {:induction false} TimelyRunIsLawful(cs: Scheme, home: Signer, run: seq<Action>, n: nat)
    requires AlwaysTimely(cs, home, run) && n <= |run|
    ensures Lawful(After(cs, home, run, n))
  {
    if n > 0 {
      TimelyRunIsLawful(cs, home, run, n - 1);
      StoresInEveryRun(cs, home, run[..n - 1]);
      assert Timely(After(cs, home, run, n - 1), run[n - 1]);
      StepLawfulExactly(cs, After(cs, home, run, n - 1), run[n - 1]);
      AfterStep(cs, home, run, n - 1);
    }
  }

  lemma LawfulRunIsTimely(cs: Scheme, home: Signer, run: seq<Action>, n: nat)
    requires AlwaysLawful(cs, home, run) && n < |run|
    ensures Timely(After(cs, home, run, n), run[n])
  {
    StoresInEveryRun(cs, home, run[..n]);
    AfterStep(cs, home, run, n);
    assert Lawful(After(cs, home, run, n)) && Lawful(After(cs, home, run, n + 1));
    StepLawfulExactly(cs, After(cs, home, run, n), run[n]);
  }

  // ------------------------------------------------------------------ from call to poll

  /** Future `t` was made by step `q`. */
  ghost predicate MadeAt(cs: Scheme, home: Signer, run: seq<Action>, t: nat, q: nat) {
    q < |run| && |After(cs, home, run, q).tasks| == t && |After(cs, home, run, q + 1).tasks| == t + 1
  }

  lemma TasksGrow(cs: Scheme, s: Server, a: Action)
    ensures |s.tasks| <= |Step(cs, s, a).tasks| <= |s.tasks| + 1
  {
    if a.Poll? && a.task < |s.tasks| { PollTasks(cs, s, a.task); }
  }

  lemma {:induction false} EveryFutureWasMade(cs: Scheme, home: Signer, run: seq<Action>, n: nat, t: nat)
      returns (q: nat)
    requires n <= |run| && t < |After(cs, home, run, n).tasks|
    ensures q < n && MadeAt(cs, home, run, t, q)
  {
    AfterStep(cs, home, run, n - 1);
    TasksGrow(cs, After(cs, home, run, n - 1), run[n - 1]);
    if t < |After(cs, home, run, n - 1).tasks| { q := EveryFutureWasMade(cs, home, run, n - 1, t); }
    else { q := n - 1; }
  }

  /** A future stays as it was made until it is finished. */
  lemma FutureStays(cs: Scheme, home: Signer, run: seq<Action>, t: nat, q: nat, n: nat)
    requires MadeAt(cs, home, run, t, q) && q < n <= |run|
    ensures t < |After(cs, home, run, n).tasks|
    ensures var now := After(cs, home, run, n).tasks[t]; now.Finished? || now == After(cs, home, run, q + 1).tasks[t]
  {
    var first, rest := run[..q + 1], run[q + 1..n];
    assert run[..n] == first + rest;
    RunFromConcat(cs, Fresh(home), first, rest);
    FutureStaysFrom(cs, After(cs, home, run, q + 1), rest, t);
  }

  lemma {:induction false} FutureStaysFrom(cs: Scheme, s: Server, later: seq<Action>, t: nat)
    requires t < |s.tasks|
    ensures t < |RunFrom(cs, s, later).tasks|
    ensures var now := RunFrom(cs, s, later).tasks[t]; now.Finished? || now == s.tasks[t]
  {
    if later != [] {
      var before := later[..|later| - 1];
      FutureStaysFrom(cs, s, before, t);
      FutureStep(cs, RunFrom(cs, s, before), later[|later| - 1], t);
    }
  }

  /** What a call grants, it grants on what is hosted at that moment. */
  lemma GrantedAtCall(cs: Scheme, s: Server, a: Action)
    requires |Step(cs, s, a).tasks| == |s.tasks| + 1 && Granted(Step(cs, s, a).tasks[|s.tasks|]).Some?
    ensures var t := Step(cs, s, a).tasks[|s.tasks|]; t.UpdateTask? <==> Granted(t).value in s.hosted
  {
    match a
    case Ask(ctx, request) => assert Granted(FutureOf(cs, s, ctx, request)).Some? ==> request.Register?;
    case Poll(i) => if i < |s.tasks| { PollTasks(cs, s, i); }
    case OnSession(j, what) =>
    case _ => StreamFrame(cs, s, a);
  }

  /** Step `n` polls a register or update future that passed its check when step `q` made it, and
      whether its id is hosted differs from what it was then. */
  ghost predicate StalePoll(cs: Scheme, home: Signer, run: seq<Action>, q: nat, n: nat) {
    && q < n < |run| && run[n].Poll? && MadeAt(cs, home, run, run[n].task, q)
    && run[n].task < |After(cs, home, run, n).tasks|
    && var id := Granted(After(cs, home, run, n).tasks[run[n].task]);
       id.Some? && (id.value in After(cs, home, run, q).hosted) != (id.value in After(cs, home, run, n).hosted)
  }

  lemma StaleIsUntimely(cs: Scheme, home: Signer, run: seq<Action>, q: nat, n: nat)
    requires q < n < |run| && run[n].Poll? && MadeAt(cs, home, run, run[n].task, q)
    ensures StalePoll(cs, home, run, q, n) <==> !Timely(After(cs, home, run, n), run[n])
  {
    var t := run[n].task;
    FutureStays(cs, home, run, t, q, n);
    AfterStep(cs, home, run, q);
    if Granted(After(cs, home, run, n).tasks[t]).Some? { GrantedAtCall(cs, After(cs, home, run, q), run[q]); }
  }

  /** Registrations and unregistrations alternate, and the hosted profiles are those registered
      last, throughout a run if and only if no register or update future that passed its check is
      polled when the hosted status of its id differs from the status at its call. */
  lemma AlternationExact(cs: Scheme, home: Signer, run: seq<Action>)
    ensures AlwaysLawful(cs, home, run) <==> !exists q: nat, n: nat :: StalePoll(cs, home, run, q, n)
  {
    if AlwaysLawful(cs, home, run) {
      forall q: nat, n: nat ensures !StalePoll(cs, home, run, q, n) {
        if StalePoll(cs, home, run, q, n) {
          LawfulRunIsTimely(cs, home, run, n);
          StaleIsUntimely(cs, home, run, q, n);
        }
      }
    }
    if !exists q: nat, n: nat :: StalePoll(cs, home, run, q, n) {
      forall n | 0 <= n < |run| ensures Timely(After(cs, home, run, n), run[n]) {
        if run[n].Poll? && run[n].task < |After(cs, home, run, n).tasks| {
          var q := EveryFutureWasMade(cs, home, run, n, run[n].task);
          StaleIsUntimely(cs, home, run, q, n);
          assert !StalePoll(cs, home, run, q, n);
        }
      }
      forall n | 0 <= n <= |run| ensures Lawful(After(cs, home, run, n)) {
        TimelyRunIsLawful(cs, home, run, n);
      }
    }
  }

  // ------------------------------------------------------------------ calls one after another

  function RunComplete(cs: Scheme, home: Signer, run: seq<Action>): Server {
    if run == [] then Fresh(home) else Complete(cs, RunComplete(cs, home, run[..|run| - 1]), run[|run| - 1])
  }

  predicate AllFinished(tasks: seq<Task>) {
    forall i :: 0 <= i < |tasks| ==> tasks[i].Finished?
  }

  lemma PolledIsFinished(cs: Scheme, s: Server, i: nat)
    requires i < |s.tasks| && (s.tasks[i].CallTask? ==> s.tasks[i].call < |s.calls|)
    ensures PollStep(cs, s, i).tasks[i].Finished?
  {
    PollTasks(cs, s, i);
    match s.tasks[i]
    case CallTask(c, stored) =>
    case _ =>
  }

  lemma NewFuture(cs: Scheme, s: Server, a: Action)
    requires |Step(cs, s, a).tasks| == |s.tasks| + 1
    ensures var s1 := Step(cs, s, a);
            var t := s1.tasks[|s.tasks|];
            (Granted(t).Some? ==> s1.hosted == s.hosted) && (t.CallTask? ==> t.call < |s1.calls|)
  {
    match a
    case Ask(ctx, request) => assert FutureOf(cs, s, ctx, request).CallTask? ==> request.PlaceCall?;
    case Poll(i) => if i < |s.tasks| { PollTasks(cs, s, i); }
    case OnSession(j, what) =>
    case _ => StreamFrame(cs, s, a);
  }

  lemma CompleteFinishes(cs: Scheme, s: Server, a: Action)
    requires AllFinished(s.tasks)
    ensures AllFinished(Complete(cs, s, a).tasks)
  {
    var s1, s2, t := Step(cs, s, a), Complete(cs, s, a), |s.tasks|;
    TasksGrow(cs, s, a);
    forall i | 0 <= i < t ensures s1.tasks[i].Finished? { FutureStep(cs, s, a, i); }
    if |s1.tasks| == t + 1 {
      NewFuture(cs, s, a);
      PolledIsFinished(cs, s1, t);
      PollTasks(cs, s1, t);
      forall i | 0 <= i < t ensures s2.tasks[i].Finished? { FutureStep(cs, s1, Poll(t), i); }
    }
  }

  lemma CompleteIsLawful(cs: Scheme, s: Server, a: Action)
    requires StoreInvariant(cs, s) && Lawful(s) && AllFinished(s.tasks)
    ensures Lawful(Complete(cs, s, a))
  {
    var s1, t := Step(cs, s, a), |s.tasks|;
    assert Timely(s, a);
    StepLawfulExactly(cs, s, a);
    StepKeepsStores(cs, s, a);
    TasksGrow(cs, s, a);
    if |s1.tasks| == t + 1 {
      NewFuture(cs, s, a);
      if Granted(s1.tasks[t]).Some? { GrantedAtCall(cs, s, a); }
      StepLawfulExactly(cs, s1, Poll(t));
    }
  }

  lemma CompleteKeepsStores(cs: Scheme, s: Server, a: Action)
    requires StoreInvariant(cs, s)
    ensures StoreInvariant(cs, Complete(cs, s, a))
  {
    StepKeepsStores(cs, s, a);
    StepKeepsStores(cs, Step(cs, s, a), Poll(|s.tasks|));
  }

  /** When calls complete one after another, successful registrations and unregistrations of each
      id strictly alternate, starting with a registration. */
  lemma {:induction false} CompletedCallsAlternate(cs: Scheme, home: Signer, run: seq<Action>)
    ensures var s := RunComplete(cs, home, run); StoreInvariant(cs, s) && AllFinished(s.tasks) && Lawful(s)
  {
    if run != [] {
      CompletedCallsAlternate(cs, home, run[..|run| - 1]);
      CompleteIsLawful(cs, RunComplete(cs, home, run[..|run| - 1]), run[|run| - 1]);
      CompleteFinishes(cs, RunComplete(cs, home, run[..|run| - 1]), run[|run| - 1]);
      CompleteKeepsStores(cs, RunComplete(cs, home, run[..|run| - 1]), run[|run| - 1]);
    }
  }

  // ------------------------------------------------------------------ calls that overlap

  /** Two registrations that overlap both succeed: the check is made when each is called. */
  lemma OverlappingRegistrations(cs: Scheme, s: Server, ctx: Context, own: OwnProfile, half: HalfProof)
    requires ValidContext(cs, ctx) && RegisterCheck(cs, s.home, ctx, own, half).Some? && own.profile.id !in s.hosted
    ensures var ask, t := Ask(ctx, Register(own, half)), |s.tasks|;
            var s' := Step(cs, Step(cs, Step(cs, Step(cs, s, ask), ask), Poll(t)), Poll(t + 1));
            && s'.tasks == s.tasks + [Finished(true), Finished(true)]
            && Lifecycle(s'.log, own.profile.id) == Lifecycle(s.log, own.profile.id) + [true, true]
  {
    var own', ask := RegisterCheck(cs, s.home, ctx, own, half).value, Ask(ctx, Register(own, half));
    BothAsked(cs, s, ctx, own, half);
    var s2 := Step(cs, Step(cs, s, ask), ask);
    WritePolled(cs, s2, |s.tasks|);
    var s3 := Step(cs, s2, Poll(|s.tasks|));
    WritePolled(cs, s3, |s.tasks| + 1);
    WroteTwice(s, s2, s3, Step(cs, s3, Poll(|s.tasks| + 1)), own');
  }

  lemma BothAsked(cs: Scheme, s: Server, ctx: Context, own: OwnProfile, half: HalfProof)
    requires ValidContext(cs, ctx) && RegisterCheck(cs, s.home, ctx, own, half).Some? && own.profile.id !in s.hosted
    ensures var ask, task := Ask(ctx, Register(own, half)),
        RegisterTask(RegisterCheck(cs, s.home, ctx, own, half).value, true);
            var s2 := Step(cs, Step(cs, s, ask), ask);
            s2.tasks == s.tasks + [task, task] && s2.log == s.log
  {
    var ask, task := Ask(ctx, Register(own, half)), RegisterTask(RegisterCheck(cs, s.home, ctx, own, half).value, true);
    assert Step(cs, s, ask) == AddTask(s, task);
  }

  lemma WroteTwice(s: Server, s2: Server, s3: Server, s4: Server, own: OwnProfile)
    requires s2.tasks == s.tasks + [RegisterTask(own, true), RegisterTask(own, true)] && s2.log == s.log
    requires Wrote(s2, s3, |s.tasks|) && Wrote(s3, s4, |s.tasks| + 1)
    ensures s4.tasks == s.tasks + [Finished(true), Finished(true)]
    ensures Lifecycle(s4.log, own.profile.id) == Lifecycle(s.log, own.profile.id) + [true, true]
  {
    LifecycleAppend(s.log, Registered(own), own.profile.id);
    LifecycleAppend(s3.log, Registered(own), own.profile.id);
  }

  /** `s'` is `s` after the granted future `i` has written. */
  predicate Wrote(s: Server, s': Server, i: nat) {
    && i < |s.tasks| && Granted(s.tasks[i]).Some?
    && s'.tasks == s.tasks[i := Finished(true)] && s'.objects == s.objects
    && var own := s.tasks[i].own;
       && s'.log == s.log + [if s.tasks[i].RegisterTask? then Registered(own) else Updated(own)]
       && s'.hosted == s.hosted[own.profile.id := own] && s'.public == s.public[own.profile.id := own.profile]
  }

  lemma WritePolled(cs: Scheme, s: Server, i: nat)
    requires i < |s.tasks| && Granted(s.tasks[i]).Some?
    ensures Wrote(s, Step(cs, s, Poll(i)), i)
  {
  }

  /** An update that is polled after the unregistration brings the profile back, and it can be
      unregistered twice in a row. */
  lemma StaleUpdateRevives(cs: Scheme, s: Server, j: nat, own: OwnProfile)
    requires StoreInvariant(cs, s) && j < |s.objects| && s.objects[j].live && own.profile.id in s.hosted
    requires own.profile.id == s.objects[j].ctx.peerId && own.profile.publicKey == s.objects[j].ctx.peerKey
    ensures var leave := OnSession(j, Unregister);
            var revived := Step(cs, Step(cs, Step(cs, s, OnSession(j, Update(own))), leave), Poll(|s.tasks|));
            && own.profile.id in revived.hosted
            && Lifecycle(Step(cs, revived, leave).log, own.profile.id) ==
                Lifecycle(s.log, own.profile.id) + [false, false]
  {
    var s1, t := AddTask(s, UpdateTask(own, true)), |s.tasks|;
    assert Step(cs, s, OnSession(j, Update(own))) == s1;
    Leaves(cs, s1, j);
    var gone := Step(cs, s1, OnSession(j, Unregister));
    WritePolled(cs, gone, t);
    var revived := Step(cs, gone, Poll(t));
    Leaves(cs, revived, j);
    LeftTwice(s1, gone, revived, Step(cs, revived, OnSession(j, Unregister)), j, t);
  }

  /** `s'` is `s` after session `j` has unregistered its owner. */
  predicate Left(s: Server, s': Server, j: nat) {
    && j < |s.objects| && s'.objects == s.objects
    && |s'.tasks| == |s.tasks| + 1 && s'.tasks[..|s.tasks|] == s.tasks
    && var id := s.objects[j].ctx.peerId;
       && s'.log == s.log + [Unregistered(id, id in s.hosted)]
       && s'.hosted == s.hosted - {id} && s'.public == s.public - {id}
  }

  lemma Leaves(cs: Scheme, s: Server, j: nat)
    requires j < |s.objects| && s.objects[j].live && s.hosted.Keys == s.public.Keys
    ensures Left(s, Step(cs, s, OnSession(j, Unregister)), j)
  {
  }

  lemma LeftTwice(s: Server, gone: Server, revived: Server, last: Server, j: nat, t: nat)
    requires t < |s.tasks| && j < |s.objects| && s.tasks[t].UpdateTask?
    requires var id := s.objects[j].ctx.peerId; id in s.hosted && Granted(s.tasks[t]) == Some(id)
    requires Left(s, gone, j) && Wrote(gone, revived, t) && Left(revived, last, j)
    ensures var id := s.objects[j].ctx.peerId; Lifecycle(last.log, id) == Lifecycle(s.log, id) + [false, false]
  {
    var id := s.objects[j].ctx.peerId;
    LifecycleAppend(s.log, Unregistered(id, true), id);
    LifecycleAppend(gone.log, Updated(s.tasks[t].own), id);
    LifecycleAppend(revived.log, Unregistered(id, true), id);
  }
}
