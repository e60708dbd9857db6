/** The home server: its two stores, the weak session map, the sessions with their event and call
    sinks, the futures it has handed out, and the calls between personas. A method of the server
    that returns a future is split as the futures split it: what is read when it is called, and
    what happens when the future is polled. `Step` is one atomic step; a run is any sequence of
    actions. */
module HomeServer {
  import opened Bytes
  import opened Prelude
  import opened Relation
  import Sinks = EventSink

  type AppId = Blob

  /** The sink half of an application channel, by identity. */
  type AppMsgSink = nat

  /** "hosted_on_home" */
  const HOSTED_ON_HOME: Blob := [104, 111, 115, 116, 101, 100, 95, 111, 110, 95, 104, 111, 109, 101]

  datatype Facet = Persona(homes: seq<Proof>, data: Blob) | OtherFacet(data: Blob)

  datatype Profile = Profile(id: ProfileId, publicKey: PublicKey, facet: Facet)

  datatype OwnProfile = OwnProfile(profile: Profile, privData: Blob)

  datatype Event = PairingRequest(half: HalfProof) | PairingResponse(relation: Proof)

  /** The authenticated peer of a connection. */
  datatype Context = Context(peerId: ProfileId, peerKey: PublicKey)

  datatype Session = Session(
    ctx: Context, live: bool, events: Sinks.Sink<Event>, apps: map<AppId, Sinks.Sink<nat>>)

  /** Where a call was pushed: as call number `pos` on the sink of `app` in `session`. */
  datatype Slot = Slot(session: nat, app: AppId, pos: nat)

  datatype Outcome = Got(sink: Option<AppMsgSink>) | Failed

  datatype CallRecord = CallRecord(
    caller: Context, callee: ProfileId, app: AppId, relation: Proof,
    task: nat,                              // the future that pushes it
    slot: Option<Slot>,
    awaiting: bool,                         // the caller waits for an answer or the timeout
    answer: Option<Option<AppMsgSink>>,     // what the callee sent through the oneshot
    outcome: Option<Outcome>)               // what the caller's future resolved to

  /** A future, with what it captured when it was made. */
  datatype Task =
    | RegisterTask(own: OwnProfile, free: bool)
    | UpdateTask(own: OwnProfile, found: bool)
    | LoginTask(ctx: Context, named: ProfileId, found: bool)
    | RequestTask(half: HalfProof, hosted: bool)
    | ResponseTask(ctx: Context, relation: Proof, to: ProfileId, stored: Option<OwnProfile>)
    | CallTask(call: nat, stored: Option<OwnProfile>)
    | Finished(ok: bool)

  /** What took effect, in order. */
  datatype Entry =
    | Registered(own: OwnProfile)
    | Updated(own: OwnProfile)
    | Unregistered(id: ProfileId, ok: bool)
    | LoggedIn(id: ProfileId, session: nat)
    | Dropped(id: ProfileId)

  datatype Server = Server(
    home: Signer,
    public: map<ProfileId, Profile>,
    hosted: map<ProfileId, OwnProfile>,
    sessions: map<ProfileId, nat>,
    objects: seq<Session>,
    tasks: seq<Task>,
    calls: seq<CallRecord>,
    log: seq<Entry>)

  datatype Request =
    | Register(own: OwnProfile, half: HalfProof)
    | Login(proof: Proof)
    | PairRequest(half: HalfProof)
    | PairResponse(relation: Proof)
    | PlaceCall(app: AppId, relation: Proof)

  datatype SessionRequest = Update(own: OwnProfile) | Unregister | Events | Checkin(app: AppId) | Drop

  datatype CallAction = Answer(sink: Option<AppMsgSink>) | Resolve | Timeout | Abandon

  datatype Action =
    | Ask(ctx: Context, request: Request)
    | OnSession(session: nat, what: SessionRequest)
    | Poll(task: nat)
    | EventChannel(session: nat, chan: nat, action: Sinks.ChannelAction)
    | AppChannel(session: nat, app: AppId, chan: nat, action: Sinks.ChannelAction)
    | OnCall(call: nat, step: CallAction)

  function Fresh(home: Signer): Server {
    Server(home, map[], map[], map[], [], [], [], [])
  }

  function Get<K, V>(m: map<K, V>, k: K): Option<V> {
    if k in m then Some(m[k]) else None
  }

  predicate ValidContext(cs: Scheme, ctx: Context) {
    cs.matches(ctx.peerKey, ctx.peerId)
  }

  // ------------------------------------------------------------------ requests, at call time

  function AddTask(s: Server, t: Task): Server {
    s.(tasks := s.tasks + [t])
  }

  /** All checks of `register`, and the profile with the countersigned home proof appended. */
  function RegisterCheck(cs: Scheme, home: Signer, ctx: Context, own: OwnProfile, half: HalfProof)
    : Option<OwnProfile>
  {
    if own.profile.id != ctx.peerId || own.profile.publicKey != ctx.peerKey
       || half.signerId != ctx.peerId || half.peerId != home.id
       || half.relationType != HOSTED_ON_HOME || !ValidHalf(cs, half, ctx.peerKey)
    then None else
    match SignRemainingHalf(cs, half, home)
    case None => None
    case Some(proof) =>
      if own.profile.facet.Persona?
      then Some(own.(profile := own.profile.(facet :=
             own.profile.facet.(homes := own.profile.facet.homes + [proof]))))
      else None
  }

  function RegisterFuture(cs: Scheme, s: Server, ctx: Context, own: OwnProfile, half: HalfProof): Task {
    match RegisterCheck(cs, s.home, ctx, own, half)
    case None => Finished(false)
    case Some(own') => RegisterTask(own', own.profile.id !in s.hosted)
  }

  /** `login` checks the type of the proof and that it names this home; nothing else. */
  function LoginFuture(s: Server, ctx: Context, proof: Proof): Task {
    if proof.relationType != HOSTED_ON_HOME then Finished(false) else
    match PeerId(proof, s.home.id)
    case None => Finished(false)
    case Some(named) => LoginTask(ctx, named, named in s.hosted)
  }

  function PairRequestFuture(cs: Scheme, s: Server, ctx: Context, half: HalfProof): Task {
    if half.signerId != ctx.peerId || !ValidHalf(cs, half, ctx.peerKey) then Finished(false)
    else RequestTask(half, half.peerId in s.hosted)
  }

  function PairResponseFuture(s: Server, ctx: Context, relation: Proof): Task {
    match PeerId(relation, ctx.peerId)
    case None => Finished(false)
    case Some(to) => ResponseTask(ctx, relation, to, Get(s.hosted, to))
  }

  function CallFuture(s: Server, ctx: Context, relation: Proof): Task {
    match PeerId(relation, ctx.peerId)
    case None => Finished(false)
    case Some(to) => CallTask(|s.calls|, Get(s.hosted, to))
  }

  /** The future a request returns. */
  function FutureOf(cs: Scheme, s: Server, ctx: Context, request: Request): Task {
    match request
    case Register(own, half) => RegisterFuture(cs, s, ctx, own, half)
    case Login(proof) => LoginFuture(s, ctx, proof)
    case PairRequest(half) => PairRequestFuture(cs, s, ctx, half)
    case PairResponse(relation) => PairResponseFuture(s, ctx, relation)
    case PlaceCall(_, relation) => CallFuture(s, ctx, relation)
  }

  function NewCalls(s: Server, ctx: Context, request: Request): seq<CallRecord> {
    if request.PlaceCall? && PeerId(request.relation, ctx.peerId).Some? then
      [CallRecord(ctx, PeerId(request.relation, ctx.peerId).value, request.app, request.relation,
                  |s.tasks|, None, false, None, None)]
    else []
  }

  /** A connection whose context does not validate is refused before any request. */
  function AskStep(cs: Scheme, s: Server, ctx: Context, request: Request): Server {
    if !ValidContext(cs, ctx) then s else
    AddTask(s, FutureOf(cs, s, ctx, request)).(calls := s.calls + NewCalls(s, ctx, request))
  }

  /** `claim`: a peer may fetch its own profile only. */
  function Claim(s: Server, ctx: Context, id: ProfileId): Option<OwnProfile> {
    if id != ctx.peerId then None else Get(s.hosted, id)
  }

  // ------------------------------------------------------------------ futures, when polled

  function Finish(s: Server, i: nat, ok: bool): Server
    requires i < |s.tasks|
  {
    s.(tasks := s.tasks[i := Finished(ok)])
  }

  /** `weak.upgrade()` of the session map's entry. */
  function LiveSession(s: Server, id: ProfileId): Option<nat> {
    if id in s.sessions && s.sessions[id] < |s.objects| && s.objects[s.sessions[id]].live
    then Some(s.sessions[id]) else None
  }

  /** `get_live_session`: an error for a profile not hosted here, nothing for one not online. */
  function GetLiveSession(s: Server, id: ProfileId): Option<Option<nat>> {
    if id in s.hosted then Some(LiveSession(s, id)) else None
  }

  function WriteProfile(s: Server, own: OwnProfile, entry: Entry): Server {
    s.(public := s.public[own.profile.id := own.profile],
       hosted := s.hosted[own.profile.id := own], log := s.log + [entry])
  }

  function NewSession(ctx: Context): Session {
    Session(ctx, true, Sinks.EmptySink(), map[])
  }

  /** The first session of a profile keeps the entry. */
  function OpenSession(s: Server, ctx: Context, named: ProfileId): Server {
    var j := |s.objects|;
    s.(objects := s.objects + [NewSession(ctx)],
       sessions := if named in s.sessions then s.sessions else s.sessions[named := j],
       log := s.log + [LoggedIn(named, j)])
  }

  function PushEvent(s: Server, to: ProfileId, event: Event): Server {
    match LiveSession(s, to)
    case None => s
    case Some(j) =>
      s.(objects := s.objects[j := s.objects[j].(events := Sinks.PushTo(s.objects[j].events, event))])
  }

  function AppSink(o: Session, app: AppId): Sinks.Sink<nat> {
    if app in o.apps then o.apps[app] else Sinks.EmptySink()
  }

  function SetAppSink(s: Server, j: nat, app: AppId, sink: Sinks.Sink<nat>): Server
    requires j < |s.objects|
  {
    s.(objects := s.objects[j := s.objects[j].(apps := s.objects[j].apps[app := sink])])
  }

  /** A call for a profile that is not online is dropped; its caller still waits, until the
      dropped oneshot or the timeout ends it. */
  function PushCall(s: Server, c: nat): Server
    requires c < |s.calls|
  {
    var r := s.calls[c];
    match LiveSession(s, r.callee)
    case None => s.(calls := s.calls[c := r.(awaiting := true)])
    case Some(j) =>
      var sink := AppSink(s.objects[j], r.app);
      var slot := Some(Slot(j, r.app, |sink.calls|));
      SetAppSink(s, j, r.app, Sinks.PushTo(sink, c))
        .(calls := s.calls[c := r.(awaiting := true, slot := slot)])
  }

  function FailCall(s: Server, c: nat): Server
    requires c < |s.calls|
  {
    s.(calls := s.calls[c := s.calls[c].(outcome := Some(Failed))])
  }

  predicate ProofHolds(cs: Scheme, relation: Proof, from: Context, stored: Option<OwnProfile>) {
    stored.Some? &&
    ValidProof(cs, relation, from.peerId, from.peerKey, stored.value.profile.id, stored.value.profile.publicKey)
  }

  function PollStep(cs: Scheme, s: Server, i: nat): Server
    requires i < |s.tasks|
  {
    match s.tasks[i]
    case RegisterTask(own, free) =>
      if free then WriteProfile(Finish(s, i, true), own, Registered(own)) else Finish(s, i, false)
    case UpdateTask(own, found) =>
      if found then WriteProfile(Finish(s, i, true), own, Updated(own)) else Finish(s, i, false)
    case LoginTask(ctx, named, found) =>
      if found then OpenSession(Finish(s, i, true), ctx, named) else Finish(s, i, false)
    case RequestTask(half, hosted) =>
      if hosted then PushEvent(Finish(s, i, true), half.peerId, PairingRequest(half)) else Finish(s, i, false)
    case ResponseTask(ctx, relation, to, stored) =>
      if ProofHolds(cs, relation, ctx, stored) && to in s.hosted
      then PushEvent(Finish(s, i, true), to, PairingResponse(relation)) else Finish(s, i, false)
    case CallTask(c, stored) =>
      if c >= |s.calls| then s
      else if ProofHolds(cs, s.calls[c].relation, s.calls[c].caller, stored) && s.calls[c].callee in s.hosted
      then PushCall(Finish(s, i, true), c) else FailCall(Finish(s, i, false), c)
    case Finished(_) => s
  }

  // ------------------------------------------------------------------ sessions and streams

  function UpdateFuture(s: Server, ctx: Context, own: OwnProfile): Task {
    if own.profile.id != ctx.peerId || own.profile.publicKey != ctx.peerKey then Finished(false)
    else UpdateTask(own, own.profile.id in s.hosted)
  }

  /** Both stores are cleared when `unregister` is called. */
  function DoUnregister(s: Server, id: ProfileId): Server {
    var ok := id in s.public && id in s.hosted;
    AddTask(s, Finished(ok)).(
      sessions := s.sessions - {id}, hosted := s.hosted - {id}, public := s.public - {id},
      log := s.log + [Unregistered(id, ok)])
  }

  /** `Drop` removes the entry of the session's profile, whichever session it is. */
  function DropSession(s: Server, j: nat): Server
    requires j < |s.objects|
  {
    var id := s.objects[j].ctx.peerId;
    s.(objects := s.objects[j := s.objects[j].(live := false)],
       sessions := s.sessions - {id}, log := s.log + [Dropped(id)])
  }

  function SetEvents(s: Server, j: nat, sink: Sinks.Sink<Event>): Server
    requires j < |s.objects|
  {
    s.(objects := s.objects[j := s.objects[j].(events := sink)])
  }

  /** Only who holds a session can call it. */
  function SessionStep(s: Server, j: nat, what: SessionRequest): Server {
    if j >= |s.objects| || !s.objects[j].live then s else
    var o := s.objects[j];
    match what
    case Update(own) => AddTask(s, UpdateFuture(s, o.ctx, own))
    case Unregister => DoUnregister(s, o.ctx.peerId)
    case Events => SetEvents(s, j, Sinks.SubscribeTo(o.events))
    case Checkin(app) => SetAppSink(s, j, app, Sinks.SubscribeTo(AppSink(o, app)))
    case Drop => DropSession(s, j)
  }

  // ------------------------------------------------------------------ calls

  /** The callee holds the call: it came out of a stream and has not been answered. */
  predicate Delivered(s: Server, c: nat) {
    && c < |s.calls| && s.calls[c].slot.Some?
    && var slot := s.calls[c].slot.value;
    && slot.session < |s.objects| && slot.app in s.objects[slot.session].apps
    && var chans := s.objects[slot.session].apps[slot.app].chans;
    exists k :: 0 <= k < |chans| && Sinks.Item(slot.pos, c) in chans[k].received
  }

  function SetCall(s: Server, c: nat, r: CallRecord): Server
    requires c < |s.calls|
  {
    s.(calls := s.calls[c := r])
  }

  /** `answer` consumes the call. The caller's select prefers an answer to the timeout. */
  function CallStep(s: Server, c: nat, step: CallAction): Server {
    if c >= |s.calls| then s else
    var r := s.calls[c];
    match step
    case Answer(sink) =>
      if Delivered(s, c) && r.answer.None? then SetCall(s, c, r.(answer := Some(sink))) else s
    case Resolve =>
      if r.awaiting && r.outcome.None? && r.answer.Some?
      then SetCall(s, c, r.(outcome := Some(Got(r.answer.value)))) else s
    case Timeout =>
      if r.awaiting && r.outcome.None? && r.answer.None?
      then SetCall(s, c, r.(outcome := Some(Got(None)))) else s
    case Abandon => // the oneshot was dropped unanswered
      if r.awaiting && r.outcome.None? && r.answer.None?
      then SetCall(s, c, r.(outcome := Some(Failed))) else s
  }

  // ------------------------------------------------------------------ runs

  function Step(cs: Scheme, s: Server, a: Action): Server {
    match a
    case Ask(ctx, request) => AskStep(cs, s, ctx, request)
    case OnSession(j, what) => SessionStep(s, j, what)
    case Poll(i) => if i < |s.tasks| then PollStep(cs, s, i) else s
    case EventChannel(j, c, ca) =>
      if j < |s.objects| then SetEvents(s, j, Sinks.Step(s.objects[j].events, Sinks.Chan(c, ca))) else s
    case AppChannel(j, app, c, ca) =>
      if j < |s.objects| && app in s.objects[j].apps
      then SetAppSink(s, j, app, Sinks.Step(s.objects[j].apps[app], Sinks.Chan(c, ca))) else s
    case OnCall(c, step) => CallStep(s, c, step)
  }

  function RunFrom(cs: Scheme, s: Server, run: seq<Action>): Server {
    if run == [] then s else Step(cs, RunFrom(cs, s, run[..|run| - 1]), run[|run| - 1])
  }

  lemma {:induction false} RunFromConcat(cs: Scheme, s: Server, run: seq<Action>, later: seq<Action>)
    ensures RunFrom(cs, s, run + later) == RunFrom(cs, RunFrom(cs, s, run), later)
    decreases |later|
  {
    if later == [] {
      assert run + later == run;
    } else {
      RunFromConcat(cs, s, run, later[..|later| - 1]);
      assert (run + later)[..|run + later| - 1] == run + later[..|later| - 1];
    }
  }

  function Run(cs: Scheme, home: Signer, run: seq<Action>): Server {
    RunFrom(cs, Fresh(home), run)
  }

  /** The state after the first `n` steps of a run. */
  function After(cs: Scheme, home: Signer, run: seq<Action>, n: nat): Server
    requires n <= |run|
  {
    Run(cs, home, run[..n])
  }

  lemma AfterStep(cs: Scheme, home: Signer, run: seq<Action>, n: nat)
    requires n < |run|
    ensures After(cs, home, run, n + 1) == Step(cs, After(cs, home, run, n), run[n])
  {
    assert run[..n + 1][..n] == run[..n];
  }

  /** One call together with the poll that completes it. */
  function Complete(cs: Scheme, s: Server, a: Action): Server {
    var s1 := Step(cs, s, a);
    if |s1.tasks| > |s.tasks| then Step(cs, s1, Poll(|s.tasks|)) else s1
  }

  /** The client behind the connection logs in with its own home proof. */
  predicate OwnProof(home: Signer, a: Action) {
    a.Ask? && a.request.Login? ==> PeerId(a.request.proof, home.id) in {None, Some(a.ctx.peerId)}
  }

  predicate OwnProofs(home: Signer, run: seq<Action>) {
    forall i :: 0 <= i < |run| ==> OwnProof(home, run[i])
  }
}
