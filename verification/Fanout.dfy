/** Event fan-out of a client session (connect/src/profile.rs): the listener list is taken out for
    the time of a dispatch, every listener gets a send of its own, new listeners arrive meanwhile,
    and the listeners whose send succeeded are merged back. */
module Fanout {

  /** `since` is the number of dispatches begun when the listener was added. */
  datatype Listener<E> = Listener(since: nat, log: seq<E>, failed: bool)

  /** What became of each send of the dispatch under way. */
  datatype SendState = Unsent | Succeeded | Broken

  datatype Dispatch<E> = Idle | Sending(event: E, taken: seq<nat>, sends: seq<SendState>)

  datatype Hub<E> = Hub(
    listeners: seq<nat>,             // the shared list
    known: seq<Listener<E>>,         // every listener ever added, by number
    dispatch: Dispatch<E>,
    begun: seq<E>,                   // events whose dispatch has begun
    stopped: bool)                   // a remote error or a dropped session ended the loop

  datatype Action<E> =
    | Add
    | Begin(event: E)
    | Complete(i: nat, ok: bool)     // send number i of the dispatch resolves
    | Merge                          // all sends have resolved
    | Stop

  function NewHub<E>(): Hub<E> {
    Hub([], [], Idle, [], false)
  }

  // ------------------------------------------------------------------ steps

  function AddListener<E>(h: Hub<E>): Hub<E> {
    h.(listeners := h.listeners + [|h.known|], known := h.known + [Listener(|h.begun|, [], false)])
  }

  /** `for_each` takes the next event only after the previous dispatch is over. */
  function BeginDispatch<E>(h: Hub<E>, event: E): Hub<E> {
    if h.stopped || !h.dispatch.Idle? then h else
    h.(listeners := [], begun := h.begun + [event],
       dispatch := Sending(event, h.listeners, seq(|h.listeners|, _ => Unsent)))
  }

  function CompleteSend<E>(h: Hub<E>, i: nat, ok: bool): Hub<E> {
    if !h.dispatch.Sending? || i >= |h.dispatch.sends| || i >= |h.dispatch.taken|
       || h.dispatch.sends[i] != Unsent || h.dispatch.taken[i] >= |h.known| then h else
    var id := h.dispatch.taken[i];
    var l := h.known[id];
    h.(dispatch := h.dispatch.(sends := h.dispatch.sends[i := if ok then Succeeded else Broken]),
       known := h.known[id := if ok then l.(log := l.log + [h.dispatch.event]) else l.(failed := true)])
  }

  /** `filter_map(res.ok())` over the results, which are in the order of the sends. */
  function Survivors(taken: seq<nat>, sends: seq<SendState>): seq<nat>
    requires |taken| == |sends|
  {
    if taken == [] then []
    else (if sends[0] == Succeeded then [taken[0]] else []) + Survivors(taken[1..], sends[1..])
  }

  function MergeBack<E>(h: Hub<E>): Hub<E> {
    if h.dispatch.Sending? && |h.dispatch.taken| == |h.dispatch.sends| && Unsent !in h.dispatch.sends
    then h.(listeners := h.listeners + Survivors(h.dispatch.taken, h.dispatch.sends), dispatch := Idle)
    else h
  }

  function StopLoop<E>(h: Hub<E>): Hub<E> {
    if h.dispatch.Idle? then h.(stopped := true) else h
  }

  function Step<E>(h: Hub<E>, a: Action<E>): Hub<E> {
    match a
    case Add => AddListener(h)
    case Begin(event) => BeginDispatch(h, event)
    case Complete(i, ok) => CompleteSend(h, i, ok)
    case Merge => MergeBack(h)
    case Stop => StopLoop(h)
  }

  function Run<E>(run: seq<Action<E>>): Hub<E> {
    if run == [] then NewHub() else Step(Run(run[..|run| - 1]), run[|run| - 1])
  }

  // ------------------------------------------------------------------ invariant

  predicate Distinct(s: seq<nat>) {
    forall i, j :: 0 <= i < j < |s| ==> s[i] != s[j]
  }

  /** The listener has received exactly the first `n` dispatches it is entitled to. */
  ghost predicate CaughtUp<E>(l: Listener<E>, begun: seq<E>, n: nat) {
    l.since <= n <= |begun| && l.log == begun[l.since..n]
  }

  /** How far the taken listener number `i` is. */
  ghost predicate TakenSound<E>(h: Hub<E>, i: nat)
    requires h.dispatch.Sending? && i < |h.dispatch.taken| && |h.dispatch.sends| == |h.dispatch.taken|
  {
    var id, n := h.dispatch.taken[i], |h.begun|;
    && id < |h.known| && n > 0
    && match h.dispatch.sends[i]
       case Unsent => !h.known[id].failed && CaughtUp(h.known[id], h.begun, n - 1)
       case Succeeded => !h.known[id].failed && CaughtUp(h.known[id], h.begun, n)
       case Broken => h.known[id].failed
  }

  ghost predicate ListedSound<E>(h: Hub<E>) {
    forall i :: 0 <= i < |h.listeners| ==>
      h.listeners[i] < |h.known| && !h.known[h.listeners[i]].failed &&
      CaughtUp(h.known[h.listeners[i]], h.begun, |h.begun|)
  }

  ghost predicate DispatchSound<E>(h: Hub<E>) {
    h.dispatch.Sending? ==>
      && |h.dispatch.sends| == |h.dispatch.taken| && |h.begun| > 0
      && h.dispatch.event == h.begun[|h.begun| - 1]
      && Distinct(h.dispatch.taken)
      && (forall i :: 0 <= i < |h.dispatch.taken| ==> h.dispatch.taken[i] !in h.listeners)
      && (forall i :: 0 <= i < |h.dispatch.taken| ==> TakenSound(h, i))
  }

  /** A live listener is in the list or taken out; a failed one has a prefix of its run. */
  ghost predicate KnownSound<E>(h: Hub<E>) {
    forall id :: 0 <= id < |h.known| ==>
      if h.known[id].failed then exists n: nat :: CaughtUp(h.known[id], h.begun, n)
      else id in h.listeners || (h.dispatch.Sending? && id in h.dispatch.taken)
  }

  ghost predicate Invariant<E>(h: Hub<E>) {
    Distinct(h.listeners) && ListedSound(h) && DispatchSound(h) && KnownSound(h)
  }

  lemma AddKeeps<E>(h: Hub<E>)
    requires Invariant(h)
    ensures Invariant(AddListener(h))
  {
    var h' := AddListener(h);
    assert forall i :: 0 <= i < |h.listeners| ==> h'.listeners[i] == h.listeners[i];
    if h.dispatch.Sending? {
      forall i | 0 <= i < |h.dispatch.taken|
        ensures TakenSound(h', i) && h.dispatch.taken[i] !in h'.listeners
      {
        assert TakenSound(h, i);
      }
    }
    forall id | 0 <= id < |h'.known|
      ensures if h'.known[id].failed then exists n: nat :: CaughtUp(h'.known[id], h'.begun, n)
              else id in h'.listeners || (h'.dispatch.Sending? && id in h'.dispatch.taken)
    {
      if id < |h.known| {
        assert h'.known[id] == h.known[id];
        if id in h.listeners { assert id in h'.listeners; }
      } else {
        assert h'.listeners[|h.listeners|] == id;
      }
    }
  }

  lemma LongerRun<E>(l: Listener<E>, begun: seq<E>, event: E, n: nat)
    requires CaughtUp(l, begun, n)
    ensures CaughtUp(l, begun + [event], n)
  {
    assert (begun + [event])[l.since..n] == begun[l.since..n];
  }

  lemma BeginKeeps<E>(h: Hub<E>, event: E)
    requires Invariant(h)
    ensures Invariant(BeginDispatch(h, event))
  {
    if !h.stopped && h.dispatch.Idle? {
      var h' := BeginDispatch(h, event);
      forall i | 0 <= i < |h.listeners| ensures TakenSound(h', i) {
        LongerRun(h.known[h.listeners[i]], h.begun, event, |h.begun|);
      }
      forall id | 0 <= id < |h.known| && h.known[id].failed
          ensures exists n: nat :: CaughtUp(h.known[id], h'.begun, n) {
        var n: nat :| CaughtUp(h.known[id], h.begun, n);
        LongerRun(h.known[id], h.begun, event, n);
      }
    }
  }

  lemma CompleteKeeps<E>(h: Hub<E>, i: nat, ok: bool)
    requires Invariant(h)
    ensures Invariant(CompleteSend(h, i, ok))
  {
    var h' := CompleteSend(h, i, ok);
    if h.dispatch.Sending? && i < |h.dispatch.sends| && h.dispatch.sends[i] == Unsent {
      assert TakenSound(h, i);
      var id, n := h.dispatch.taken[i], |h.begun|;
      assert h.begun[h.known[id].since..n] == h.begun[h.known[id].since..n - 1] + [h.begun[n - 1]];
      forall k | 0 <= k < |h.dispatch.taken| ensures TakenSound(h', k) {
        assert TakenSound(h, k);
        assert k != i ==> h.dispatch.taken[k] != id;
      }
      assert CaughtUp(h.known[id], h.begun, n - 1);
      assert !ok ==> CaughtUp(h'.known[id], h'.begun, n - 1);
      forall x | 0 <= x < |h'.known| && h'.known[x].failed ensures exists m: nat :: CaughtUp(h'.known[x], h'.begun, m) {
        if x != id {
          assert h.known[x].failed;
          var m: nat :| CaughtUp(h.known[x], h.begun, m);
          assert CaughtUp(h'.known[x], h'.begun, m);
        }
      }
    }
  }

  lemma {:induction false} SurvivorsExact(taken: seq<nat>, sends: seq<SendState>)
    requires |taken| == |sends| && Distinct(taken)
    ensures Distinct(Survivors(taken, sends))
    ensures forall id :: id in Survivors(taken, sends) <==>
              exists i :: 0 <= i < |taken| && taken[i] == id && sends[i] == Succeeded
  {
    if taken != [] {
      var t, s := taken[1..], sends[1..];
      assert forall i :: 0 <= i < |t| ==> t[i] == taken[i + 1] && s[i] == sends[i + 1];
      SurvivorsExact(t, s);
      assert taken[0] !in Survivors(t, s);
      forall id ensures id in Survivors(taken, sends) <==>
          exists i :: 0 <= i < |taken| && taken[i] == id && sends[i] == Succeeded {
        if id in Survivors(t, s) {
          var i :| 0 <= i < |t| && t[i] == id && s[i] == Succeeded;
          assert taken[i + 1] == id && sends[i + 1] == Succeeded;
        }
        if exists i :: 0 <= i < |taken| && taken[i] == id && sends[i] == Succeeded {
          var i :| 0 <= i < |taken| && taken[i] == id && sends[i] == Succeeded;
          if i > 0 { assert t[i - 1] == id && s[i - 1] == Succeeded; }
        }
      }
    }
  }

  lemma DistinctConcat(a: seq<nat>, b: seq<nat>)
    requires Distinct(a) && Distinct(b) && forall x :: x in b ==> x !in a
    ensures Distinct(a + b)
  {
    var s := a + b;
    forall i, j | 0 <= i < j < |s| ensures s[i] != s[j] {
      if i < |a| <= j { assert s[j] == b[j - |a|] && b[j - |a|] in b; }
    }
  }

  lemma MergeKeeps<E>(h: Hub<E>)
    requires Invariant(h)
    ensures Invariant(MergeBack(h))
  {
    if h.dispatch.Sending? && Unsent !in h.dispatch.sends {
      var h', taken, sends := MergeBack(h), h.dispatch.taken, h.dispatch.sends;
      var back := Survivors(taken, sends);
      SurvivorsExact(taken, sends);
      DistinctConcat(h.listeners, back);
      forall i | 0 <= i < |h'.listeners|
        ensures h'.listeners[i] < |h'.known| && !h'.known[h'.listeners[i]].failed &&
                CaughtUp(h'.known[h'.listeners[i]], h'.begun, |h'.begun|)
      {
        if i >= |h.listeners| {
          assert h'.listeners[i] == back[i - |h.listeners|] && h'.listeners[i] in back;
          var k :| 0 <= k < |taken| && taken[k] == h'.listeners[i] && sends[k] == Succeeded;
          assert TakenSound(h, k);
        }
      }
      forall id | 0 <= id < |h.known| && !h.known[id].failed ensures id in h'.listeners {
        if id !in h.listeners {
          var k :| 0 <= k < |taken| && taken[k] == id;
          assert TakenSound(h, k) && sends[k] in sends;
          assert sends[k] == Succeeded;
          assert id in back;
        }
      }
    }
  }

  lemma StepKeeps<E>(h: Hub<E>, a: Action<E>)
    requires Invariant(h)
    ensures Invariant(Step(h, a))
  {
    match a
    case Add => AddKeeps(h);
    case Begin(event) => BeginKeeps(h, event);
    case Complete(i, ok) => CompleteKeeps(h, i, ok);
    case Merge => MergeKeeps(h);
    case Stop =>
  }

  // ------------------------------------------------------------------ theorems over runs

  lemma {:induction false} RunKeeps<E>(run: seq<Action<E>>)
    ensures Invariant(Run(run))
  {
    if run != [] {
      RunKeeps(run[..|run| - 1]);
      StepKeeps(Run(run[..|run| - 1]), run[|run| - 1]);
    }
  }

  /** Between dispatches: a listener that has not failed has received exactly the events from the
      first dispatch begun after its registration on, and is in the list once; a failed one is
      not in the list and received a prefix of that run. */
  lemma FanOutExact<E>(run: seq<Action<E>>, id: nat)
    requires Run(run).dispatch.Idle? && id < |Run(run).known|
    ensures var h, l := Run(run), Run(run).known[id];
            && l.since <= |h.begun|
            && (!l.failed ==> l.log == h.begun[l.since..] && multiset(h.listeners)[id] == 1)
            && (l.failed ==> l.log <= h.begun[l.since..] && id !in h.listeners)
  {
    RunKeeps(run);
    var h := Run(run);
    var l := h.known[id];
    if l.failed {
      var n: nat :| CaughtUp(l, h.begun, n);
      assert h.begun[l.since..] == l.log + h.begun[n..];
      assert id !in h.listeners;
    } else {
      assert id in h.listeners;
      var k :| 0 <= k < |h.listeners| && h.listeners[k] == id;
      assert h.begun[l.since..|h.begun|] == h.begun[l.since..];
      CountDistinct(h.listeners, k);
    }
  }

  lemma CountDistinct(s: seq<nat>, k: nat)
    requires Distinct(s) && k < |s|
    ensures multiset(s)[s[k]] == 1
  {
    assert s == s[..k] + ([s[k]] + s[k + 1..]);
    assert s[k] !in s[..k];
    var tail := s[k + 1..];
    assert forall j :: 0 <= j < |tail| ==> tail[j] == s[k + 1 + j];
    assert s[k] !in tail;
  }

  /** A registration is for good: where it starts never changes, its log only grows, and once it
      has failed it receives nothing more. */
  ghost predicate Continues<E>(l: Listener<E>, l': Listener<E>) {
    && l'.since == l.since && l.log <= l'.log && (l.failed ==> l' == l)
  }

  lemma StepContinues<E>(h: Hub<E>, a: Action<E>, id: nat)
    requires Invariant(h) && id < |h.known|
    ensures id < |Step(h, a).known| && Continues(h.known[id], Step(h, a).known[id])
  {
    if a.Complete? && h.dispatch.Sending? && a.i < |h.dispatch.taken| {
      assert TakenSound(h, a.i);
    }
  }

  lemma {:induction false} FailedGetNothingLater<E>(run: seq<Action<E>>, later: seq<Action<E>>, id: nat)
    requires id < |Run(run).known|
    ensures id < |Run(run + later).known| && Continues(Run(run).known[id], Run(run + later).known[id])
    decreases |later|
  {
    if later == [] {
      assert run + later == run;
    } else {
      var before := later[..|later| - 1];
      FailedGetNothingLater(run, before, id);
      RunKeeps(run + before);
      assert (run + later)[..|run + later| - 1] == run + before;
      StepContinues(Run(run + before), later[|later| - 1], id);
    }
  }

  // ------------------------------------------------------------------ what the run says

  /** Send `i` of the dispatch under way is for listener `id` and still out. */
  predicate OutFor<E>(h: Hub<E>, i: nat, id: nat) {
    h.dispatch.Sending? && i < |h.dispatch.taken| && i < |h.dispatch.sends| &&
    h.dispatch.taken[i] == id && h.dispatch.sends[i] == Unsent
  }

  /** A send that resolves well delivers the event under way to its own listener, one that fails
      ends its listener and delivers nothing; nobody else is touched. */
  lemma SendDecides<E>(h: Hub<E>, i: nat, id: nat, ok: bool)
    requires Invariant(h) && OutFor(h, i, id)
    ensures var h' := Step(h, Complete(i, ok));
            && id < |h.known| == |h'.known| && |h.begun| > 0
            && h'.known[id].log == h.known[id].log + (if ok then [h.begun[|h.begun| - 1]] else [])
            && h'.known[id].failed == !ok
            && (forall x :: 0 <= x < |h.known| && x != id ==> h'.known[x] == h.known[x])
            && h'.listeners == h.listeners && h'.begun == h.begun && h'.stopped == h.stopped
            && (forall k: nat, x: nat :: OutFor(h', k, x) <==> OutFor(h, k, x) && k != i)
  {
    assert TakenSound(h, i);
  }

  /** Step `n` of the run fails a send to `id` that was still out. */
  predicate FailsAt<E>(run: seq<Action<E>>, n: nat, id: nat) {
    n < |run| && run[n].Complete? && !run[n].ok && OutFor(Run(run[..n]), run[n].i, id)
  }

  lemma StepFails<E>(h: Hub<E>, a: Action<E>, id: nat)
    requires Invariant(h) && id < |h.known|
    ensures id < |Step(h, a).known|
    ensures Step(h, a).known[id].failed <==>
              h.known[id].failed || (a.Complete? && !a.ok && OutFor(h, a.i, id))
  {
    if a.Complete? && h.dispatch.Sending? && a.i < |h.dispatch.taken| { assert TakenSound(h, a.i); }
  }

  lemma OutIsKnown<E>(h: Hub<E>, i: nat, id: nat)
    requires Invariant(h)
    ensures OutFor(h, i, id) ==> id < |h.known|
  {
    if OutFor(h, i, id) { assert TakenSound(h, i); }
  }

  lemma FailuresAreKnown<E>(run: seq<Action<E>>, n: nat, id: nat)
    ensures FailsAt(run, n, id) ==> id < |Run(run).known|
  {
    if FailsAt(run, n, id) {
      RunKeeps(run[..n]);
      OutIsKnown(Run(run[..n]), run[n].i, id);
      FailedGetNothingLater(run[..n], run[n..], id);
      assert run[..n] + run[n..] == run;
    }
  }

  ghost predicate EverFails<E>(run: seq<Action<E>>, id: nat) {
    exists n: nat :: FailsAt(run, n, id)
  }

  lemma EverFailsLonger<E>(run: seq<Action<E>>, a: Action<E>, id: nat)
    ensures EverFails(run + [a], id) <==>
              EverFails(run, id) || (a.Complete? && !a.ok && OutFor(Run(run), a.i, id))
  {
    var all := run + [a];
    forall n: nat | n < |run| ensures FailsAt(all, n, id) <==> FailsAt(run, n, id) {
      assert all[..n] == run[..n];
    }
    assert all[..|run|] == run;
    if EverFails(run, id) {
      var n: nat :| FailsAt(run, n, id);
      assert FailsAt(all, n, id);
    }
    if a.Complete? && !a.ok && OutFor(Run(run), a.i, id) { assert FailsAt(all, |run|, id); }
  }

  lemma UnknownNeverFails<E>(run: seq<Action<E>>, id: nat)
    requires id >= |Run(run).known|
    ensures !EverFails(run, id) && forall i: nat :: !OutFor(Run(run), i, id)
  {
    RunKeeps(run);
    forall n: nat ensures !FailsAt(run, n, id) { FailuresAreKnown(run, n, id); }
    forall i: nat ensures !OutFor(Run(run), i, id) { OutIsKnown(Run(run), i, id); }
  }

  /** A listener has failed if and only if the run fails a send to it that was still out. */
  lemma {:induction false} FailedExactly<E>(run: seq<Action<E>>, id: nat)
    requires id < |Run(run).known|
    ensures Run(run).known[id].failed <==> EverFails(run, id)
  {
    if run != [] {
      var before, a := run[..|run| - 1], run[|run| - 1];
      assert run == before + [a];
      EverFailsLonger(before, a, id);
      RunKeeps(before);
      if id < |Run(before).known| {
        FailedExactly(before, id);
        StepFails(Run(before), a, id);
      } else {
        UnknownNeverFails(before, id);
      }
    }
  }

  /** In a run in which no send fails nobody fails: between dispatches every listener is listed and
      has every event dispatched since it was added. */
  lemma NobodyFails<E>(run: seq<Action<E>>, id: nat)
    requires forall n :: 0 <= n < |run| && run[n].Complete? ==> run[n].ok
    requires Run(run).dispatch.Idle? && id < |Run(run).known|
    ensures var h := Run(run);
            && !h.known[id].failed && id in h.listeners
            && h.known[id].since <= |h.begun| && h.known[id].log == h.begun[h.known[id].since..]
  {
    FailedExactly(run, id);
    FanOutExact(run, id);
    assert id in multiset(Run(run).listeners);
  }

  /** The events whose dispatch has begun, read off the run: those that arrive while no dispatch is
      under way and the loop has not ended. */
  function EventsBegun<E>(run: seq<Action<E>>): seq<E> {
    if run == [] then [] else
    var before, a := run[..|run| - 1], run[|run| - 1];
    EventsBegun(before) +
    if a.Begin? && Run(before).dispatch.Idle? && !Run(before).stopped then [a.event] else []
  }

  /** The listeners added by the run. */
  function Added<E>(run: seq<Action<E>>): nat {
    if run == [] then 0 else Added(run[..|run| - 1]) + if run[|run| - 1].Add? then 1 else 0
  }

  lemma {:induction false} BegunExactly<E>(run: seq<Action<E>>)
    ensures Run(run).begun == EventsBegun(run) && |Run(run).known| == Added(run)
  {
    if run != [] { BegunExactly(run[..|run| - 1]); }
  }

  /** A new listener is listed, has nothing yet, and is entitled to everything begun from now on. */
  lemma AddLists<E>(h: Hub<E>)
    ensures var h' := Step(h, Add);
            && h'.known == h.known + [Listener(|h.begun|, [], false)]
            && h'.listeners == h.listeners + [|h.known|] && h'.dispatch == h.dispatch
  {
  }

  /** A dispatch that can begin takes out every listed listener, with a send to each of them. */
  lemma BeginTakesAll<E>(h: Hub<E>, event: E, id: nat)
    requires h.dispatch.Idle? && !h.stopped
    ensures var h' := Step(h, Begin(event));
            && h'.listeners == [] && h'.dispatch.Sending? && h'.known == h.known
            && (id in h.listeners <==> exists i: nat :: OutFor(h', i, id))
  {
    if id in h.listeners {
      var i: nat :| i < |h.listeners| && h.listeners[i] == id;
      assert OutFor(Step(h, Begin(event)), i, id);
    }
  }

  /** A dispatch ends exactly when no send is out any more; then the next event can begin, unless
      the loop has been ended for good. */
  lemma MergeEnds<E>(h: Hub<E>)
    requires Invariant(h) && h.dispatch.Sending?
    ensures Step(h, Merge).dispatch.Idle? <==> forall i: nat, id: nat :: !OutFor(h, i, id)
    ensures Step(h, Merge).stopped == h.stopped && Step(h, Stop) == h
  {
    if Unsent in h.dispatch.sends {
      var i: nat :| i < |h.dispatch.sends| && h.dispatch.sends[i] == Unsent;
      assert OutFor(h, i, h.dispatch.taken[i]);
    }
  }

  lemma {:induction false} StopIsFinal<E>(run: seq<Action<E>>, later: seq<Action<E>>)
    requires Run(run).dispatch.Idle?
    ensures var h := Run(run + [Stop] + later); h.stopped && h.dispatch.Idle? && h.begun == Run(run).begun
    decreases |later|
  {
    var all := run + [Stop] + later;
    if later == [] {
      assert all[..|all| - 1] == run;
    } else {
      StopIsFinal(run, later[..|later| - 1]);
      assert all[..|all| - 1] == run + [Stop] + later[..|later| - 1];
    }
  }

  // ------------------------------------------------------------------ the object

  /** `MyHomeSessionImpl`, with its listener list updated in place. */
  class EventHub<E> {
    var listeners: seq<nat>
    var known: seq<Listener<E>>
    var dispatch: Dispatch<E>
    var begun: seq<E>
    var stopped: bool

    ghost function View(): Hub<E>
      reads this
    {
      Hub(listeners, known, dispatch, begun, stopped)
    }

    ghost predicate Valid()
      reads this
    {
      Invariant(View())
    }

    constructor ()
      ensures Valid() && View() == NewHub()
    {
      listeners, known, dispatch, begun, stopped := [], [], Idle, [], false;
    }

    /** `events`: a new channel whose sender joins the list. */
    method Listen() returns (id: nat)
      requires Valid()
      modifies this
      ensures Valid() && View() == AddListener(old(View())) && id == |old(known)|
    {
      AddKeeps(View());
      id := |known|;
      listeners := listeners + [id];
      known := known + [Listener(|begun|, [], false)];
    }

    /** `forward_event_safe` up to the sends: the list is taken out. */
    method Forward(event: E)
      requires Valid()
      modifies this
      ensures Valid() && View() == BeginDispatch(old(View()), event)
    {
      BeginKeeps(View(), event);
      if stopped || !dispatch.Idle? { return; }
      dispatch := Sending(event, listeners, seq(|listeners|, _ => Unsent));
      listeners := [];
      begun := begun + [event];
    }

    /** A send of the dispatch resolves. */
    method SendResolved(i: nat, ok: bool)
      requires Valid() && dispatch.Sending? && i < |dispatch.sends| && dispatch.sends[i] == Unsent
      modifies this
      ensures Valid() && View() == CompleteSend(old(View()), i, ok)
      ensures var id := old(dispatch).taken[i];
              && id < |old(known)| && |old(begun)| > 0
              && known == old(known)[id := known[id]] && known[id].since == old(known)[id].since
              && known[id].failed == !ok
              && known[id].log == old(known)[id].log + if ok then [old(begun)[|old(begun)| - 1]] else []
    {
      CompleteKeeps(View(), i, ok);
      assert TakenSound(View(), i);
      var id := dispatch.taken[i];
      if ok {
        known := known[id := known[id].(log := known[id].log + [dispatch.event])];
      } else {
        known := known[id := known[id].(failed := true)];
      }
      dispatch := dispatch.(sends := dispatch.sends[i := if ok then Succeeded else Broken]);
    }

    /** All sends have resolved: the successful listeners join those added meanwhile. */
    method MergeListeners()
      requires Valid() && dispatch.Sending? && Unsent !in dispatch.sends
      modifies this
      ensures Valid() && View() == MergeBack(old(View()))
    {
      MergeKeeps(View());
      var back := KeepSuccessful(dispatch.taken, dispatch.sends);
      listeners := listeners + back;
      dispatch := Idle;
    }
  }

  lemma {:induction false} SurvivorsAppend(taken: seq<nat>, sends: seq<SendState>, id: nat, state: SendState)
    requires |taken| == |sends|
    ensures Survivors(taken + [id], sends + [state]) ==
            Survivors(taken, sends) + if state == Succeeded then [id] else []
  {
    if taken != [] {
      SurvivorsAppend(taken[1..], sends[1..], id, state);
      assert (taken + [id])[1..] == taken[1..] + [id] && (sends + [state])[1..] == sends[1..] + [state];
    }
  }

  method KeepSuccessful(taken: seq<nat>, sends: seq<SendState>) returns (back: seq<nat>)
    requires |taken| == |sends|
    ensures back == Survivors(taken, sends)
  {
    back := [];
    for i := 0 to |taken|
      invariant back == Survivors(taken[..i], sends[..i])
    {
      SurvivorsAppend(taken[..i], sends[..i], taken[i], sends[i]);
      assert taken[..i + 1] == taken[..i] + [taken[i]] && sends[..i + 1] == sends[..i] + [sends[i]];
      if sends[i] == Succeeded { back := back + [taken[i]]; }
    }
    assert taken[..|taken|] == taken && sends[..|sends|] == sends;
  }
}
