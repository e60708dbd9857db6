/** Which session of a profile the home server finds: the session map over every run, against the
    log of effects and against the sessions that are in fact live. */
module HomeSessions {
  import opened Prelude
  import opened Relation
  import opened HomeServer
  import opened HomeInvariants
  import opened HomeStores

  // ------------------------------------------------------------------ the reachable session

  /** Logins were made with the proof of the connecting persona, pending ones included. */
  ghost predicate OwnLogins(s: Server) {
    && (forall i :: 0 <= i < |s.tasks| && s.tasks[i].LoginTask? ==> s.tasks[i].named == s.tasks[i].ctx.peerId)
    && (forall id :: id in s.sessions ==>
          s.sessions[id] < |s.objects| && s.objects[s.sessions[id]].ctx.peerId == id)
  }

  lemma PollKeepsOwnLogins(cs: Scheme, s: Server, i: nat)
    requires OwnLogins(s) && i < |s.tasks|
    ensures OwnLogins(PollStep(cs, s, i))
  {
    match s.tasks[i]
    case RegisterTask(_, _) =>
    case UpdateTask(_, _) =>
    case LoginTask(_, _, _) =>
    case _ => DeliveryFrame(cs, s, i);
  }

  lemma SessionKeepsOwnLogins(s: Server, j: nat, what: SessionRequest)
    requires OwnLogins(s)
    ensures OwnLogins(SessionStep(s, j, what))
  {
    if j < |s.objects| && s.objects[j].live && !what.Unregister? && !what.Drop? {
      SameStoresKeepsOwnLogins(s, SessionStep(s, j, what));
    }
  }

  lemma SameStoresKeepsOwnLogins(s: Server, s': Server)
    requires OwnLogins(s) && SameStores(s, s')
    requires forall i :: 0 <= i < |s'.tasks| && s'.tasks[i].LoginTask? ==> s'.tasks[i].named == s'.tasks[i].ctx.peerId
    ensures OwnLogins(s')
  {
  }

  lemma StepKeepsOwnLogins(cs: Scheme, s: Server, a: Action)
    requires OwnLogins(s) && OwnProof(s.home, a)
    ensures OwnLogins(Step(cs, s, a))
  {
    match a
    case Poll(i) => if i < |s.tasks| { PollKeepsOwnLogins(cs, s, i); }
    case OnSession(j, what) => SessionKeepsOwnLogins(s, j, what);
    case Ask(ctx, request) => AskKeepsOwnLogins(cs, s, ctx, request);
    case _ =>
      StreamFrame(cs, s, a);
      SameStoresKeepsOwnLogins(s, Step(cs, s, a));
  }

  lemma AskKeepsOwnLogins(cs: Scheme, s: Server, ctx: Context, request: Request)
    requires OwnLogins(s) && OwnProof(s.home, Ask(ctx, request))
    ensures OwnLogins(AskStep(cs, s, ctx, request))
  {
    if ValidContext(cs, ctx) {
      var t := FutureOf(cs, s, ctx, request);
      assert t.LoginTask? ==> request.Login?;
    }
  }

  lemma {:induction false} OwnLoginsInEveryRun(cs: Scheme, home: Signer, run: seq<Action>)
    requires OwnProofs(home, run)
    ensures OwnLogins(Run(cs, home, run)) && Run(cs, home, run).home == home
  {
    if run != [] {
      OwnLoginsInEveryRun(cs, home, run[..|run| - 1]);
      StepKeepsOwnLogins(cs, Run(cs, home, run[..|run| - 1]), run[|run| - 1]);
      HomeFixed(cs, Run(cs, home, run[..|run| - 1]), run[|run| - 1]);
    }
  }

  /** The session `get_live_session` finds is live, belongs to the profile, and is the first one
      logged in since the profile's last drop or unregistration; it finds none exactly when the
      hosted profile has no entry. */
  lemma LiveSessionIsCurrent(cs: Scheme, home: Signer, run: seq<Action>, id: ProfileId)
    requires OwnProofs(home, run)
    ensures var s := Run(cs, home, run);
            && LiveSession(s, id) == CurrentSession(s.log, id)
            && (LiveSession(s, id).Some? ==> s.objects[LiveSession(s, id).value].ctx.peerId == id)
            && (GetLiveSession(s, id) == Some(None) <==> id in s.hosted && id !in s.sessions)
            && (GetLiveSession(s, id).None? <==> id !in s.hosted)
  {
    StoresInEveryRun(cs, home, run);
    OwnLoginsInEveryRun(cs, home, run);
    var s := Run(cs, home, run);
    assert Get(s.sessions, id) == CurrentSession(s.log, id);
  }

  // ------------------------------------------------------------------ live sessions that are not found

  predicate Enters(e: Entry, id: ProfileId) {
    e.LoggedIn? && e.id == id
  }

  /** The session map has no entry for `id` after this. */
  predicate Removes(e: Entry, id: ProfileId) {
    (e.Dropped? || e.Unregistered?) && e.id == id
  }

  ghost predicate NoneEntersAfter(log: seq<Entry>, id: ProfileId, q: nat) {
    forall r :: q < r < |log| ==> !Enters(log[r], id)
  }

  /** After position `p` the entry of `id` was removed, and nobody has logged in for `id` since. */
  ghost predicate RemovedSince(log: seq<Entry>, id: ProfileId, p: nat) {
    exists q :: p < q < |log| && Removes(log[q], id) && NoneEntersAfter(log, id, q)
  }

  lemma {:induction false} NoneMeansRemoved(log: seq<Entry>, id: ProfileId, p: nat)
    requires p < |log| && Enters(log[p], id) && CurrentSession(log, id).None?
    ensures RemovedSince(log, id, p)
  {
    var last := |log| - 1;
    if Removes(log[last], id) {
      assert NoneEntersAfter(log, id, last);
    } else {
      NoneMeansRemoved(log[..last], id, p);
      var q :| p < q < last && Removes(log[..last][q], id) && NoneEntersAfter(log[..last], id, q);
      forall r | q < r < |log| ensures !Enters(log[r], id) {
        if r < last { assert !Enters(log[..last][r], id); }
      }
      assert Removes(log[q], id) && NoneEntersAfter(log, id, q);
    }
  }

  lemma {:induction false} RemovedMeansNone(log: seq<Entry>, id: ProfileId, q: nat)
    requires q < |log| && Removes(log[q], id) && NoneEntersAfter(log, id, q)
    ensures CurrentSession(log, id).None?
  {
    var last := |log| - 1;
    if q < last {
      assert forall r :: q < r < last ==> log[..last][r] == log[r];
      RemovedMeansNone(log[..last], id, q);
      assert !Enters(log[last], id);
    }
  }

  /** Session `j` was opened by the login at position `p` of the log. */
  predicate OpenedAt(log: seq<Entry>, id: ProfileId, j: nat, p: nat) {
    p < |log| && log[p] == LoggedIn(id, j)
  }

  ghost predicate Logged(log: seq<Entry>, id: ProfileId, j: nat) {
    exists p: nat :: OpenedAt(log, id, j, p)
  }

  ghost predicate SessionsLogged(s: Server) {
    forall j :: 0 <= j < |s.objects| ==> Logged(s.log, s.objects[j].ctx.peerId, j)
  }

  lemma LoggedLater(log: seq<Entry>, log': seq<Entry>, id: ProfileId, j: nat)
    requires Logged(log, id, j) && log <= log'
    ensures Logged(log', id, j)
  {
    var p: nat :| OpenedAt(log, id, j, p);
    assert OpenedAt(log', id, j, p);
  }

  /** What a step does to the log and to the contexts of the sessions. */
  ghost predicate History(s: Server, s': Server) {
    && s.log <= s'.log && |s.objects| <= |s'.objects|
    && (forall j :: 0 <= j < |s.objects| ==> s'.objects[j].ctx == s.objects[j].ctx)
    && (forall j :: |s.objects| <= j < |s'.objects| ==> Logged(s'.log, s'.objects[j].ctx.peerId, j))
  }

  lemma HistoryKeepsLogged(s: Server, s': Server)
    requires SessionsLogged(s) && History(s, s')
    ensures SessionsLogged(s')
  {
    forall j | 0 <= j < |s'.objects| ensures Logged(s'.log, s'.objects[j].ctx.peerId, j) {
      if j < |s.objects| { LoggedLater(s.log, s'.log, s.objects[j].ctx.peerId, j); }
    }
  }

  lemma PollHistory(cs: Scheme, s: Server, i: nat)
    requires OwnLogins(s) && i < |s.tasks|
    ensures History(s, PollStep(cs, s, i))
  {
    match s.tasks[i]
    case RegisterTask(_, _) =>
    case UpdateTask(_, _) =>
    case LoginTask(ctx, named, found) =>
      if found { assert OpenedAt(PollStep(cs, s, i).log, named, |s.objects|, |s.log|); }
    case _ => DeliveryFrame(cs, s, i);
  }

  lemma StepHistory(cs: Scheme, s: Server, a: Action)
    requires OwnLogins(s)
    ensures History(s, Step(cs, s, a))
  {
    match a
    case Poll(i) => if i < |s.tasks| { PollHistory(cs, s, i); }
    case OnSession(j, what) => SessionHistory(s, j, what);
    case Ask(ctx, request) => assert Step(cs, s, a).objects == s.objects && Step(cs, s, a).log == s.log;
    case _ => StreamFrame(cs, s, a);
  }

  lemma SessionHistory(s: Server, j: nat, what: SessionRequest)
    ensures History(s, SessionStep(s, j, what))
  {
  }

  lemma {:induction false} EverySessionLogged(cs: Scheme, home: Signer, run: seq<Action>)
    requires OwnProofs(home, run)
    ensures SessionsLogged(Run(cs, home, run))
  {
    if run != [] {
      var before := run[..|run| - 1];
      EverySessionLogged(cs, home, before);
      OwnLoginsInEveryRun(cs, home, before);
      StepHistory(cs, Run(cs, home, before), run[|run| - 1]);
      HistoryKeepsLogged(Run(cs, home, before), Run(cs, home, run));
    }
  }

  /** Exactly when a profile looks offline although its session `j` is live: after the login that
      opened `j`, some session of the profile was dropped or the profile was unregistered, and
      nobody has logged in for it since. */
  lemma LiveButNotFound(cs: Scheme, home: Signer, run: seq<Action>, id: ProfileId, j: nat)
    requires OwnProofs(home, run)
    requires var s := Run(cs, home, run);
             id in s.hosted && j < |s.objects| && s.objects[j].live && s.objects[j].ctx.peerId == id
    ensures var s := Run(cs, home, run);
            GetLiveSession(s, id) == Some(None) <==>
            exists p: nat :: OpenedAt(s.log, id, j, p) && RemovedSince(s.log, id, p)
  {
    var s := Run(cs, home, run);
    LiveSessionIsCurrent(cs, home, run, id);
    EverySessionLogged(cs, home, run);
    assert Logged(s.log, s.objects[j].ctx.peerId, j);
    var p: nat :| OpenedAt(s.log, id, j, p);
    if CurrentSession(s.log, id).None? { NoneMeansRemoved(s.log, id, p); }
    if exists p': nat :: OpenedAt(s.log, id, j, p') && RemovedSince(s.log, id, p') {
      var p': nat :| OpenedAt(s.log, id, j, p') && RemovedSince(s.log, id, p');
      var q :| p' < q < |s.log| && Removes(s.log[q], id) && NoneEntersAfter(s.log, id, q);
      RemovedMeansNone(s.log, id, q);
    }
  }

  /** "Not online" is not what None means: dropping a second session of a profile hides its
      first one, which is still live. */
  lemma SecondSessionHidesFirst(cs: Scheme, s: Server, ctx: Context, proof: Proof)
    requires ValidContext(cs, ctx) && ctx.peerId in s.hosted && LiveSession(s, ctx.peerId).Some?
    requires proof.relationType == HOSTED_ON_HOME && PeerId(proof, s.home.id) == Some(ctx.peerId)
    ensures var second := Complete(cs, s, Ask(ctx, Login(proof)));
            var dropped := Step(cs, second, OnSession(|s.objects|, Drop));
            && GetLiveSession(dropped, ctx.peerId) == Some(None)
            && dropped.objects[LiveSession(s, ctx.peerId).value].live
  {
    var asked := AddTask(s, LoginTask(ctx, ctx.peerId, true));
    assert Step(cs, s, Ask(ctx, Login(proof))) == asked;
    assert Complete(cs, s, Ask(ctx, Login(proof))) == OpenSession(Finish(asked, |s.tasks|, true), ctx, ctx.peerId);
  }

  /** So does leaving and coming back with one session only: the old session stays live. */
  lemma ReRegistrationHidesSession(cs: Scheme, s: Server, j: nat, own: OwnProfile, half: HalfProof)
    requires j < |s.objects| && s.objects[j].live && ValidContext(cs, s.objects[j].ctx)
    requires RegisterCheck(cs, s.home, s.objects[j].ctx, own, half).Some?
    ensures var ctx := s.objects[j].ctx;
            var back := Complete(cs, Step(cs, s, OnSession(j, Unregister)), Ask(ctx, Register(own, half)));
            GetLiveSession(back, ctx.peerId) == Some(None) && back.objects[j].live
  {
    var ctx, gone := s.objects[j].ctx, DoUnregister(s, s.objects[j].ctx.peerId);
    var own' := RegisterCheck(cs, s.home, ctx, own, half).value;
    assert Step(cs, s, OnSession(j, Unregister)) == gone;
    var asked := AddTask(gone, RegisterTask(own', true));
    assert Step(cs, gone, Ask(ctx, Register(own, half))) == asked;
    assert Step(cs, asked, Poll(|gone.tasks|)) ==
        WriteProfile(Finish(asked, |gone.tasks|, true), own', Registered(own'));
  }

  // ------------------------------------------------------------------ what a login does

  /** Session `j` is live and belongs to `id`. */
  predicate LiveOf(s: Server, id: ProfileId, j: nat) {
    j < |s.objects| && s.objects[j].live && s.objects[j].ctx.peerId == id
  }

  /** A login closes no session: when its future is polled, the new session is the only live one of
      its profile if and only if none was live before. */
  lemma LoginClosesNoSession(cs: Scheme, s: Server, i: nat)
    requires i < |s.tasks| && s.tasks[i].LoginTask? && s.tasks[i].found
    ensures var s', id := PollStep(cs, s, i), s.tasks[i].ctx.peerId;
            && LiveOf(s', id, |s.objects|) && s'.objects[..|s.objects|] == s.objects
            && ((forall j: nat :: LiveOf(s', id, j) ==> j == |s.objects|) <==> (forall j: nat :: !LiveOf(s, id, j)))
  {
    var s', id := PollStep(cs, s, i), s.tasks[i].ctx.peerId;
    assert s'.objects == s.objects + [NewSession(s.tasks[i].ctx)];
    assert forall j: nat :: j < |s.objects| ==> LiveOf(s', id, j) == LiveOf(s, id, j);
  }

  /** If the step polls a login that makes an entry, its proof named the connecting persona. */
  predicate EntersOwn(s: Server, a: Action) {
    a.Poll? && a.task < |s.tasks| && s.tasks[a.task].LoginTask? && s.tasks[a.task].found
    && s.tasks[a.task].named !in s.sessions ==>
      s.tasks[a.task].named == s.tasks[a.task].ctx.peerId
  }

  lemma PollKeepsLive(cs: Scheme, s: Server, i: nat)
    requires SessionsLive(s.sessions, s.objects) && i < |s.tasks|
    ensures var s' := PollStep(cs, s, i); SessionsLive(s'.sessions, s'.objects) <==> EntersOwn(s, Poll(i))
  {
    match s.tasks[i]
    case RegisterTask(_, _) =>
    case UpdateTask(_, _) =>
    case LoginTask(ctx, named, found) =>
      if found && named !in s.sessions { EntryOwnedExactlyForOwnProof(cs, s, i); }
    case _ => DeliveryFrame(cs, s, i);
  }

  lemma SessionKeepsLive(s: Server, j: nat, what: SessionRequest)
    requires SessionsLive(s.sessions, s.objects)
    ensures var s' := SessionStep(s, j, what); SessionsLive(s'.sessions, s'.objects)
  {
  }

  /** From a state where every entry is a live session of its own profile, a step keeps this if and
      only if it does not enter a session for another profile. */
  lemma StepKeepsLiveExactly(cs: Scheme, s: Server, a: Action)
    requires SessionsLive(s.sessions, s.objects)
    ensures var s' := Step(cs, s, a); SessionsLive(s'.sessions, s'.objects) <==> EntersOwn(s, a)
  {
    match a
    case Poll(i) => if i < |s.tasks| { PollKeepsLive(cs, s, i); }
    case OnSession(j, what) => SessionKeepsLive(s, j, what);
    case Ask(ctx, request) => assert Step(cs, s, a).objects == s.objects && Step(cs, s, a).sessions == s.sessions;
    case _ => StreamFrame(cs, s, a);
  }

  lemma {:induction false} OwnEntriesKeepLive(cs: Scheme, home: Signer, run: seq<Action>, n: nat)
    requires n <= |run| && forall i :: 0 <= i < |run| ==> EntersOwn(After(cs, home, run, i), run[i])
    ensures var s := After(cs, home, run, n); SessionsLive(s.sessions, s.objects)
  {
    if n > 0 {
      OwnEntriesKeepLive(cs, home, run, n - 1);
      AfterStep(cs, home, run, n - 1);
      StepKeepsLiveExactly(cs, After(cs, home, run, n - 1), run[n - 1]);
    }
  }

  ghost predicate LiveAfter(cs: Scheme, home: Signer, run: seq<Action>, n: nat)
    requires n <= |run|
  {
    SessionsLive(After(cs, home, run, n).sessions, After(cs, home, run, n).objects)
  }

  /** Throughout a run the session map refers to live sessions of the right profiles if and only if
      every login that makes an entry named the connecting persona. */
  lemma SessionMapExact(cs: Scheme, home: Signer, run: seq<Action>)
    ensures (forall n :: 0 <= n <= |run| ==> LiveAfter(cs, home, run, n)) <==>
            (forall n :: 0 <= n < |run| ==> EntersOwn(After(cs, home, run, n), run[n]))
  {
    if forall n :: 0 <= n <= |run| ==> LiveAfter(cs, home, run, n) {
      forall n | 0 <= n < |run| ensures EntersOwn(After(cs, home, run, n), run[n]) {
        AfterStep(cs, home, run, n);
        assert LiveAfter(cs, home, run, n) && LiveAfter(cs, home, run, n + 1);
        StepKeepsLiveExactly(cs, After(cs, home, run, n), run[n]);
      }
    }
    if forall n :: 0 <= n < |run| ==> EntersOwn(After(cs, home, run, n), run[n]) {
      forall n | 0 <= n <= |run| ensures LiveAfter(cs, home, run, n) { OwnEntriesKeepLive(cs, home, run, n); }
    }
  }

  /** A login that makes an entry keeps every entry a live session of its own profile exactly when
      the proof presented names the persona behind the connection. */
  lemma EntryOwnedExactlyForOwnProof(cs: Scheme, s: Server, i: nat)
    requires SessionsLive(s.sessions, s.objects)
    requires i < |s.tasks| && s.tasks[i].LoginTask? && s.tasks[i].found && s.tasks[i].named !in s.sessions
    ensures var s' := PollStep(cs, s, i);
            SessionsLive(s'.sessions, s'.objects) <==> s.tasks[i].named == s.tasks[i].ctx.peerId
  {
    assert PollStep(cs, s, i).sessions[s.tasks[i].named] == |s.objects|;
  }
}
