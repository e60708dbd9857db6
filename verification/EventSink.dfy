/** One `ServerSink` of a home session together with the channels it hands out: `push_event` and
    `events()`, or `push_call` and `checkin_app` of one application. Every future is split into
    the steps at which the reactor may switch: the call itself, each item of a flush task, each
    pending send, each receive, the drop of a send future and the drop of a receiver. Channel
    capacity is not modelled: a send may complete at any time, which includes every schedule a
    bounded channel allows. */
module EventSink {
  import opened Prelude

  /** `Ok(value)`, tagged with the position of its push among all calls, or the `Err` warning
      that a repeated subscription sends to the superseded channel. */
  datatype Message<T> = Item(pos: nat, value: T) | Warning

  /** The calls made on a sink, in order. */
  datatype Call<T> = Push(value: T) | Subscribe

  datatype Source<T> = Buffer(items: seq<Message<T>>) | Sender(chan: nat)

  datatype Channel<T> = Channel(
    open: bool,                      // the receiver has not been dropped
    flush: seq<Message<T>>,          // rest of the spawned send_all task
    pending: seq<Message<T>>,        // sends that are not in the channel yet
    queue: seq<Message<T>>,          // in the channel
    received: seq<Message<T>>,       // handed to the client, in order
    lost: seq<Message<T>>)           // dropped with a receiver or with a send future

  datatype Sink<T> = Sink(source: Source<T>, chans: seq<Channel<T>>, calls: seq<Call<T>>)

  datatype ChannelAction = Flush | Deposit(i: nat) | Cancel(i: nat) | Receive | Close

  datatype Action<T> = Calls(call: Call<T>) | Chan(chan: nat, action: ChannelAction)

  // ------------------------------------------------------------------ the machine

  function EmptySink<T>(): Sink<T> {
    Sink(Buffer([]), [], [])
  }

  function NewChannel<T>(flush: seq<Message<T>>): Channel<T> {
    Channel(true, flush, [], [], [], [])
  }

  function AddPending<T>(s: Sink<T>, c: nat, m: Message<T>): Sink<T>
    requires c < |s.chans|
  {
    s.(chans := s.chans[c := s.chans[c].(pending := s.chans[c].pending + [m])])
  }

  function PushTo<T>(s: Sink<T>, value: T): Sink<T> {
    var m := Item(|s.calls|, value);
    var s' := s.(calls := s.calls + [Push(value)]);
    match s.source
    case Buffer(items) => s'.(source := Buffer(items + [m]))
    case Sender(c) => if c < |s.chans| then AddPending(s', c, m) else s'
  }

  function SubscribeTo<T>(s: Sink<T>): Sink<T> {
    var s' := s.(source := Sender(|s.chans|), calls := s.calls + [Subscribe]);
    match s.source
    case Buffer(items) => s'.(chans := s.chans + [NewChannel(items)])
    case Sender(c) =>
      if c < |s.chans| then
        var warned := AddPending(s', c, Warning);
        warned.(chans := warned.chans + [NewChannel([])])
      else s'.(chans := s.chans + [NewChannel([])])
  }

  function ChannelStep<T>(ch: Channel<T>, a: ChannelAction): Channel<T> {
    match a
    case Flush =>
      if ch.flush == [] then ch
      else if ch.open then ch.(queue := ch.queue + [ch.flush[0]], flush := ch.flush[1..])
      else ch.(lost := ch.lost + ch.flush, flush := [])
    case Deposit(i) =>
      if i >= |ch.pending| then ch
      else if ch.open then ch.(queue := ch.queue + [ch.pending[i]], pending := Without(ch.pending, i))
      else ch.(lost := ch.lost + [ch.pending[i]], pending := Without(ch.pending, i))
    case Cancel(i) => // the warning is spawned on the reactor and cannot be cancelled
      if i >= |ch.pending| || ch.pending[i].Warning? then ch
      else ch.(lost := ch.lost + [ch.pending[i]], pending := Without(ch.pending, i))
    case Receive =>
      if ch.queue == [] then ch
      else ch.(received := ch.received + [ch.queue[0]], queue := ch.queue[1..])
    case Close =>
      ch.(open := false, lost := ch.lost + ch.queue, queue := [])
  }

  function Step<T>(s: Sink<T>, a: Action<T>): Sink<T> {
    match a
    case Calls(Push(value)) => PushTo(s, value)
    case Calls(Subscribe) => SubscribeTo(s)
    case Chan(c, ca) =>
      if c < |s.chans| then s.(chans := s.chans[c := ChannelStep(s.chans[c], ca)]) else s
  }

  function Run<T>(run: seq<Action<T>>): Sink<T> {
    if run == [] then EmptySink() else Step(Run(run[..|run| - 1]), run[|run| - 1])
  }

  // ------------------------------------------------------------------ what is owed

  function CallsOf<T>(run: seq<Action<T>>): seq<Call<T>> {
    if run == [] then [] else
    var before := CallsOf(run[..|run| - 1]);
    match run[|run| - 1]
    case Calls(call) => before + [call]
    case Chan(_, _) => before
  }

  function Subscriptions<T>(calls: seq<Call<T>>): nat {
    if calls == [] then 0 else
    Subscriptions(calls[..|calls| - 1]) + if calls[|calls| - 1].Subscribe? then 1 else 0
  }

  /** The channel that a call made after `calls` concerns: the latest one, and channel 0 for
      everything pushed before the first subscription. */
  function Generation<T>(calls: seq<Call<T>>): nat {
    var n := Subscriptions(calls);
    if n == 0 then 0 else n - 1
  }

  /** Everything channel `c` has to account for, read off the calls alone: the values pushed in
      its generation, and one warning once it is superseded. */
  ghost function Owed<T>(calls: seq<Call<T>>, c: nat): multiset<Message<T>> {
    if calls == [] then multiset{} else
    var before := calls[..|calls| - 1];
    Owed(before, c) + Due(before, calls[|calls| - 1], c)
  }

  /** What one more call adds to the account of channel `c`. */
  ghost function Due<T>(before: seq<Call<T>>, call: Call<T>, c: nat): multiset<Message<T>> {
    if Generation(before) != c then multiset{} else
    match call
    case Push(value) => multiset{Item(|before|, value)}
    case Subscribe => if Subscriptions(before) > 0 then multiset{Warning} else multiset{}
  }

  /** The values pushed before the first subscription, in push order. */
  function Buffered<T>(calls: seq<Call<T>>): seq<Message<T>> {
    if calls == [] then [] else
    var before := calls[..|calls| - 1];
    match calls[|calls| - 1]
    case Push(value) =>
      if Subscriptions(calls) == 0 then Buffered(before) + [Item(|before|, value)] else Buffered(before)
    case Subscribe => Buffered(before)
  }

  /** Where a message of the channel can be. */
  ghost function Ledger<T>(ch: Channel<T>): multiset<Message<T>> {
    multiset(ch.flush) + multiset(ch.pending) + multiset(ch.queue) + multiset(ch.received) + multiset(ch.lost)
  }

  /** The messages of `ms` that were pushed as one of the first `k` calls. */
  function Early<T>(ms: seq<Message<T>>, k: nat): seq<Message<T>> {
    if ms == [] then [] else
    var rest := Early(ms[1..], k);
    if ms[0].Item? && ms[0].pos < k then [ms[0]] + rest else rest
  }

  // ------------------------------------------------------------------ invariant

  /** `early` is what the channel's flush task was given, in order. */
  ghost predicate InOrder<T>(ch: Channel<T>, early: seq<Message<T>>) {
    var k := |early|;
    && Early(ch.flush, k) == ch.flush
    && Early(ch.pending, k) == []
    && Early(ch.received, k) <= early
    && (ch.open ==> Early(ch.received, k) + Early(ch.queue, k) + ch.flush == early)
    && (!ch.open ==> ch.queue == [])
  }

  ghost predicate WellFormed<T>(s: Sink<T>) {
    && |s.chans| == Subscriptions(s.calls)
    && (match s.source
        case Buffer(items) => s.chans == [] && items == Buffered(s.calls)
        case Sender(c) => s.chans != [] && c == |s.chans| - 1)
  }

  ghost predicate Accounted<T>(chans: seq<Channel<T>>, calls: seq<Call<T>>) {
    forall c :: 0 <= c < |chans| ==> Ledger(chans[c]) == Owed(calls, c)
  }

  ghost predicate Invariant<T>(s: Sink<T>) {
    && WellFormed(s)
    && Accounted(s.chans, s.calls)
    && (s.chans != [] ==> InOrder(s.chans[0], Buffered(s.calls)))
  }

  lemma {:induction false} EarlyConcat<T>(a: seq<Message<T>>, b: seq<Message<T>>, k: nat)
    ensures Early(a + b, k) == Early(a, k) + Early(b, k)
  {
    if a == [] {
      assert a + b == b;
    } else {
      assert (a + b)[1..] == a[1..] + b;
      EarlyConcat(a[1..], b, k);
    }
  }

  lemma WithoutParts<T>(s: seq<Message<T>>, i: nat, k: nat)
    requires i < |s|
    ensures multiset(s) == multiset(Without(s, i)) + multiset{s[i]}
    ensures Early(s, k) == [] ==> Early(Without(s, i), k) == [] && Early([s[i]], k) == []
  {
    assert s == s[..i] + ([s[i]] + s[i + 1..]);
    EarlyConcat(s[..i], [s[i]] + s[i + 1..], k);
    EarlyConcat([s[i]], s[i + 1..], k);
    EarlyConcat(s[..i], s[i + 1..], k);
  }

  lemma HeadAndTail<T>(ms: seq<Message<T>>)
    requires ms != []
    ensures multiset(ms) == multiset{ms[0]} + multiset(ms[1..])
  {
    assert ms == [ms[0]] + ms[1..];
  }

  lemma FlushKeepsLedger<T>(ch: Channel<T>)
    ensures Ledger(ChannelStep(ch, Flush)) == Ledger(ch)
  {
    if ch.flush != [] { HeadAndTail(ch.flush); }
  }

  lemma PendingKeepsLedger<T>(ch: Channel<T>, a: ChannelAction)
    requires a.Deposit? || a.Cancel?
    ensures Ledger(ChannelStep(ch, a)) == Ledger(ch)
  {
    if a.i < |ch.pending| { WithoutParts(ch.pending, a.i, 0); }
  }

  lemma ReceiveKeepsLedger<T>(ch: Channel<T>)
    ensures Ledger(ChannelStep(ch, Receive)) == Ledger(ch)
  {
    if ch.queue != [] { HeadAndTail(ch.queue); }
  }

  /** No channel step creates, destroys or duplicates a message. */
  lemma ChannelStepKeepsLedger<T>(ch: Channel<T>, a: ChannelAction)
    ensures Ledger(ChannelStep(ch, a)) == Ledger(ch)
  {
    match a
    case Flush => FlushKeepsLedger(ch);
    case Deposit(i) => PendingKeepsLedger(ch, a);
    case Cancel(i) => PendingKeepsLedger(ch, a);
    case Receive => ReceiveKeepsLedger(ch);
    case Close =>
  }

  lemma FlushKeepsOrder<T>(ch: Channel<T>, early: seq<Message<T>>)
    requires InOrder(ch, early) && ch.flush != []
    ensures InOrder(ChannelStep(ch, Flush), early)
  {
    var k, head, tail := |early|, [ch.flush[0]], ch.flush[1..];
    EarlyHead(ch.flush, k);
    EarlyConcat(ch.queue, head, k);
    assert ch.flush == head + tail;
    var r, q := Early(ch.received, k), Early(ch.queue, k);
    assert r + (q + head) + tail == r + q + (head + tail);
  }

  lemma PendingKeepsOrder<T>(ch: Channel<T>, a: ChannelAction, early: seq<Message<T>>)
    requires InOrder(ch, early) && (a.Deposit? || a.Cancel?) && a.i < |ch.pending|
    ensures InOrder(ChannelStep(ch, a), early)
  {
    WithoutParts(ch.pending, a.i, |early|);
    EarlyConcat(ch.queue, [ch.pending[a.i]], |early|);
    var q := Early(ch.queue, |early|);
    assert q + [] == q;
  }

  lemma MoveOne<A>(r: seq<A>, h: seq<A>, t: seq<A>, f: seq<A>, whole: seq<A>)
    requires r + (h + t) + f == whole
    ensures (r + h) + t + f == whole && r + h <= whole
  {
    assert (r + h) + t + f == r + (h + t) + f;
    assert r + h == whole[..|r + h|];
  }

  lemma ReceiveKeepsOrder<T>(ch: Channel<T>, early: seq<Message<T>>)
    requires InOrder(ch, early) && ch.queue != []
    ensures InOrder(ChannelStep(ch, Receive), early)
  {
    var k, head, tail := |early|, [ch.queue[0]], ch.queue[1..];
    assert ch.queue == head + tail;
    EarlyConcat(ch.received, head, k);
    EarlyConcat(head, tail, k);
    MoveOne(Early(ch.received, k), Early(head, k), Early(tail, k), ch.flush, early);
  }

  /** No channel step reorders the buffered messages. */
  lemma ChannelStepKeepsOrder<T>(ch: Channel<T>, a: ChannelAction, early: seq<Message<T>>)
    requires InOrder(ch, early)
    ensures InOrder(ChannelStep(ch, a), early)
  {
    match a
    case Flush => if ch.flush != [] { FlushKeepsOrder(ch, early); }
    case Deposit(i) => if i < |ch.pending| { PendingKeepsOrder(ch, a, early); }
    case Cancel(i) => if i < |ch.pending| { PendingKeepsOrder(ch, a, early); }
    case Receive => if ch.queue != [] { ReceiveKeepsOrder(ch, early); }
    case Close =>
  }

  lemma {:induction false} EarlyLength<T>(ms: seq<Message<T>>, k: nat)
    ensures |Early(ms, k)| <= |ms|
  {
    if ms != [] { EarlyLength(ms[1..], k); }
  }

  lemma EarlyHead<T>(ms: seq<Message<T>>, k: nat)
    requires ms != [] && Early(ms, k) == ms
    ensures Early([ms[0]], k) == [ms[0]] && Early(ms[1..], k) == ms[1..]
  {
    EarlyLength(ms[1..], k);
    assert ms == [ms[0]] + ms[1..];
  }

  lemma {:induction false} BufferedShape<T>(calls: seq<Call<T>>)
    ensures |Buffered(calls)| <= |calls|
    ensures Early(Buffered(calls), |Buffered(calls)|) == Buffered(calls)
    ensures forall k :: k >= |Buffered(calls)| ==> Early(Buffered(calls), k) == Buffered(calls)
    ensures Subscriptions(calls) == 0 ==>
              |Buffered(calls)| == |calls| && Owed(calls, 0) == multiset(Buffered(calls))
    ensures forall c :: c >= 1 && c >= Subscriptions(calls) ==> Owed(calls, c) == multiset{}
  {
    if calls != [] {
      var before := calls[..|calls| - 1];
      BufferedShape(before);
      if calls[|calls| - 1].Push? && Subscriptions(calls) == 0 {
        var m := Item(|before|, calls[|calls| - 1].value);
        forall k | k >= |Buffered(calls)| ensures Early(Buffered(calls), k) == Buffered(calls) {
          EarlyConcat(Buffered(before), [m], k);
        }
      }
    }
  }

  lemma CallAppended<T>(calls: seq<Call<T>>, call: Call<T>)
    ensures Subscriptions(calls + [call]) == Subscriptions(calls) + (if call.Subscribe? then 1 else 0)
    ensures Buffered(calls + [call]) == Buffered(calls) +
              if call.Push? && Subscriptions(calls) == 0 then [Item(|calls|, call.value)] else []
  {
    assert (calls + [call])[..|calls|] == calls;
  }

  lemma OwedAppended<T>(calls: seq<Call<T>>, call: Call<T>, c: nat)
    ensures Owed(calls + [call], c) == Owed(calls, c) + Due(calls, call, c)
  {
    assert (calls + [call])[..|calls|] == calls;
  }

  lemma PendingAddsOne<T>(ch: Channel<T>, m: Message<T>)
    ensures Ledger(ch.(pending := ch.pending + [m])) == Ledger(ch) + multiset{m}
  {
  }

  /** Adding the message a call is about to the current channel keeps all accounts. */
  lemma AddPendingKeepsAccounts<T>(s: Sink<T>, call: Call<T>, m: Message<T>)
    requires WellFormed(s) && Accounted(s.chans, s.calls) && s.source.Sender?
    requires m == (match call case Push(value) => Item(|s.calls|, value) case Subscribe => Warning)
    ensures Accounted(AddPending(s, s.source.chan, m).chans, s.calls + [call])
  {
    var last, chans := s.source.chan, AddPending(s, s.source.chan, m).chans;
    PendingAddsOne(s.chans[last], m);
    forall c | 0 <= c < |chans| ensures Ledger(chans[c]) == Owed(s.calls + [call], c) {
      OwedAppended(s.calls, call, c);
      assert Ledger(s.chans[c]) == Owed(s.calls, c);
      assert c != last ==> chans[c] == s.chans[c];
    }
  }

  lemma AddPendingKeepsOrder<T>(s: Sink<T>, m: Message<T>)
    requires WellFormed(s) && s.source.Sender? && InOrder(s.chans[0], Buffered(s.calls))
    requires m.Warning? || m.pos == |s.calls|
    ensures InOrder(AddPending(s, s.source.chan, m).chans[0], Buffered(s.calls))
  {
    BufferedShape(s.calls);
    EarlyConcat(s.chans[0].pending, [m], |Buffered(s.calls)|);
  }

  lemma PushKeepsInvariant<T>(s: Sink<T>, value: T)
    requires Invariant(s)
    ensures Invariant(PushTo(s, value))
  {
    CallAppended(s.calls, Push(value));
    match s.source
    case Buffer(_) =>
    case Sender(c) =>
      AddPendingKeepsAccounts(s, Push(value), Item(|s.calls|, value));
      AddPendingKeepsOrder(s, Item(|s.calls|, value));
  }

  lemma FirstSubscribeKeepsInvariant<T>(s: Sink<T>)
    requires Invariant(s) && s.source.Buffer?
    ensures Invariant(SubscribeTo(s))
  {
    CallAppended(s.calls, Subscribe);
    OwedAppended(s.calls, Subscribe, 0);
    BufferedShape(s.calls);
    var ch := NewChannel(Buffered(s.calls));
    assert SubscribeTo(s).chans == [ch];
    assert Ledger(ch) == multiset(Buffered(s.calls));
    assert Early(ch.received, |ch.flush|) + Early(ch.queue, |ch.flush|) + ch.flush == ch.flush;
  }

  lemma FreshChannelAccounted<T>(chans: seq<Channel<T>>, calls: seq<Call<T>>)
    requires Accounted(chans, calls)
    requires Owed(calls, |chans|) == multiset{}
    ensures Accounted(chans + [NewChannel([])], calls)
  {
    var ch := NewChannel<T>([]);
    assert Ledger(ch) == multiset{};
  }

  lemma FreshChannelOwedNothing<T>(calls: seq<Call<T>>)
    requires Subscriptions(calls) > 0
    ensures Owed(calls + [Subscribe], Subscriptions(calls)) == multiset{}
  {
    OwedAppended(calls, Subscribe, Subscriptions(calls));
    BufferedShape(calls);
  }

  lemma RepeatedSubscribeKeepsInvariant<T>(s: Sink<T>)
    requires Invariant(s) && s.source.Sender?
    ensures Invariant(SubscribeTo(s))
  {
    CallAppended(s.calls, Subscribe);
    AddPendingKeepsAccounts(s, Subscribe, Warning);
    AddPendingKeepsOrder(s, Warning);
    FreshChannelOwedNothing(s.calls);
    var warned := AddPending(s, s.source.chan, Warning).chans;
    FreshChannelAccounted(warned, s.calls + [Subscribe]);
    assert SubscribeTo(s).chans == warned + [NewChannel([])];
    assert SubscribeTo(s).chans[0] == warned[0];
  }

  lemma ChannelKeepsInvariant<T>(s: Sink<T>, c: nat, ca: ChannelAction)
    requires Invariant(s)
    ensures Invariant(Step(s, Chan(c, ca)))
  {
    if c < |s.chans| {
      var s' := Step(s, Chan(c, ca));
      forall i | 0 <= i < |s'.chans| ensures Ledger(s'.chans[i]) == Owed(s'.calls, i) {
        ChannelStepKeepsLedger(s.chans[c], ca);
        assert Ledger(s.chans[i]) == Owed(s.calls, i);
      }
      ChannelStepKeepsOrder(s.chans[0], if c == 0 then ca else Flush, Buffered(s.calls));
    }
  }

  lemma StepKeepsInvariant<T>(s: Sink<T>, a: Action<T>)
    requires Invariant(s)
    ensures Invariant(Step(s, a))
  {
    match a
    case Calls(Push(value)) => PushKeepsInvariant(s, value);
    case Calls(Subscribe) =>
      if s.source.Buffer? { FirstSubscribeKeepsInvariant(s); } else { RepeatedSubscribeKeepsInvariant(s); }
    case Chan(c, ca) => ChannelKeepsInvariant(s, c, ca);
  }

  lemma StepRecordsCall<T>(s: Sink<T>, a: Action<T>)
    ensures Step(s, a).calls == s.calls + if a.Calls? then [a.call] else []
  {
  }

  // ------------------------------------------------------------------ theorems over runs

  /** Conservation: in every interleaving, what the calls owe to each channel is exactly what its
      five places hold, and what was buffered is still in order. */
  lemma {:induction false} RunConserves<T>(run: seq<Action<T>>)
    ensures Invariant(Run(run)) && Run(run).calls == CallsOf(run)
  {
    if run != [] {
      var before := run[..|run| - 1];
      RunConserves(before);
      StepKeepsInvariant(Run(before), run[|run| - 1]);
      StepRecordsCall(Run(before), run[|run| - 1]);
    }
  }

  /** Call number `n` pushed `value`, and channel `c` was the current one. */
  predicate PushedInto<T(==)>(calls: seq<Call<T>>, n: nat, value: T, c: nat) {
    n < |calls| && calls[n] == Push(value) && Generation(calls[..n]) == c
  }

  lemma DueCounts<T>(before: seq<Call<T>>, call: Call<T>, c: nat, n: nat, value: T)
    ensures Due(before, call, c)[Item(n, value)] ==
              if call == Push(value) && n == |before| && Generation(before) == c then 1 else 0
    ensures Due(before, call, c)[Warning] ==
              if call.Subscribe? && c + 1 == Subscriptions(before) then 1 else 0
  {
  }

  lemma PushedIntoLonger<T>(before: seq<Call<T>>, call: Call<T>, n: nat, value: T, c: nat)
    ensures PushedInto(before + [call], n, value, c) <==>
              PushedInto(before, n, value, c) || (call == Push(value) && n == |before| && Generation(before) == c)
  {
    var calls := before + [call];
    if n <= |before| { assert calls[..n] == before[..n]; }
    assert before[..|before|] == before;
  }

  lemma {:induction false} OwedCounts<T>(calls: seq<Call<T>>, c: nat, n: nat, value: T)
    ensures Owed(calls, c)[Item(n, value)] == if PushedInto(calls, n, value, c) then 1 else 0
    ensures Owed(calls, c)[Warning] == if c + 1 < Subscriptions(calls) then 1 else 0
  {
    if calls != [] {
      var before, call := calls[..|calls| - 1], calls[|calls| - 1];
      OwedCounts(before, c, n, value);
      DueCounts(before, call, c, n, value);
      PushedIntoLonger(before, call, n, value, c);
      assert calls == before + [call];
    }
  }

  /** The generations of a sink, from its own calls. */
  lemma LedgerCounts<T>(s: Sink<T>, c: nat, n: nat, value: T)
    requires Invariant(s) && c < |s.chans|
    ensures Ledger(s.chans[c])[Item(n, value)] == if PushedInto(s.calls, n, value, c) then 1 else 0
    ensures Ledger(s.chans[c])[Warning] == if c + 1 < Subscriptions(s.calls) then 1 else 0
  {
    OwedCounts(s.calls, c, n, value);
  }

  /** Generations: a value pushed between the n-th and the next subscription is in channel n, in
      one place, and in no other channel; a superseded channel accounts for one warning and the
      current one for none. */
  lemma GenerationsSeparate<T>(run: seq<Action<T>>, c: nat, n: nat, value: T)
    requires c < |Run(run).chans|
    ensures Ledger(Run(run).chans[c])[Item(n, value)] ==
              if PushedInto(CallsOf(run), n, value, c) then 1 else 0
    ensures Ledger(Run(run).chans[c])[Warning] ==
              if c + 1 < Subscriptions(CallsOf(run)) then 1 else 0
  {
    RunConserves(run);
    LedgerCounts(Run(run), c, n, value);
  }

  /** A run in which no receiver and no send future is dropped. */
  predicate Driven<T>(run: seq<Action<T>>) {
    forall i :: 0 <= i < |run| ==> run[i].Calls? || !(run[i].action.Close? || run[i].action.Cancel?)
  }

  /** Nothing is lost while receivers live and sends are driven; then, once nothing is on its
      way, each channel has received exactly its due, the buffered values in push order. */
  lemma {:induction false} DrivenRunLosesNothing<T>(run: seq<Action<T>>)
    requires Driven(run)
    ensures Intact(Run(run).chans)
  {
    if run != [] {
      DrivenRunLosesNothing(run[..|run| - 1]);
      DrivenStepLosesNothing(Run(run[..|run| - 1]), run[|run| - 1]);
    }
  }

  ghost predicate Intact<T>(chans: seq<Channel<T>>) {
    forall c :: 0 <= c < |chans| ==> chans[c].open && chans[c].lost == []
  }

  lemma DrivenStepLosesNothing<T>(s: Sink<T>, a: Action<T>)
    requires Intact(s.chans) && Driven([a])
    ensures Intact(Step(s, a).chans)
  {
    assert [a][0] == a;
  }

  /** Nothing is on its way in the channel. */
  predicate Quiet<T>(ch: Channel<T>) {
    ch.flush == [] && ch.pending == [] && ch.queue == []
  }

  /** A quiet channel that lost nothing has received exactly its due. */
  lemma QuietChannelDelivered<T>(s: Sink<T>, c: nat)
    requires Invariant(s) && Intact(s.chans) && c < |s.chans| && Quiet(s.chans[c])
    ensures multiset(s.chans[c].received) == Owed(s.calls, c)
    ensures c == 0 ==> Early(s.chans[0].received, |Buffered(s.calls)|) == Buffered(s.calls)
  {
    assert Ledger(s.chans[c]) == multiset(s.chans[c].received);
  }

  lemma QuietRunDelivers<T>(run: seq<Action<T>>, c: nat)
    requires Driven(run) && c < |Run(run).chans| && Quiet(Run(run).chans[c])
    ensures multiset(Run(run).chans[c].received) == Owed(CallsOf(run), c)
    ensures c == 0 ==>
              Early(Run(run).chans[0].received, |Buffered(CallsOf(run))|) == Buffered(CallsOf(run))
  {
    RunConserves(run);
    DrivenRunLosesNothing(run);
    QuietChannelDelivered(Run(run), c);
  }

  /** In any run, dropped receivers included, the buffered values that were received are a prefix
      of the buffer, in push order. */
  lemma BufferedArriveInOrder<T>(run: seq<Action<T>>)
    requires Run(run).chans != []
    ensures Early(Run(run).chans[0].received, |Buffered(CallsOf(run))|) <= Buffered(CallsOf(run))
  {
    RunConserves(run);
  }

  // ------------------------------------------------------------------ progress

  function ChannelRun<T>(ch: Channel<T>, actions: seq<ChannelAction>): Channel<T>
    decreases |actions|
  {
    if actions == [] then ch else ChannelRun(ChannelStep(ch, actions[0]), actions[1..])
  }

  predicate DrivenActions(actions: seq<ChannelAction>) {
    forall i :: 0 <= i < |actions| ==> !(actions[i].Close? || actions[i].Cancel?)
  }

  /** A stream is a queue: in any step but the drop of the receiver, what the client has and what is
      in the channel only grows, at the end, by the message that a flush or a send puts there. */
  lemma StreamIsFifo<T>(ch: Channel<T>, a: ChannelAction)
    requires !a.Close?
    ensures var ch' := ChannelStep(ch, a);
            && ch.received <= ch'.received
            && ch'.received + ch'.queue == ch.received + ch.queue +
               (if a.Flush? && ch.open && ch.flush != [] then [ch.flush[0]]
                else if a.Deposit? && ch.open && a.i < |ch.pending| then [ch.pending[a.i]] else [])
  {
    if a.Receive? && ch.queue != [] { assert ch.queue == [ch.queue[0]] + ch.queue[1..]; }
    if a.Flush? && ch.open && ch.flush != [] {
      assert ch.received + (ch.queue + [ch.flush[0]]) == ch.received + ch.queue + [ch.flush[0]];
    }
    if a.Deposit? && ch.open && a.i < |ch.pending| {
      assert ch.received + (ch.queue + [ch.pending[a.i]]) == ch.received + ch.queue + [ch.pending[a.i]];
    }
  }

  /** Once its receiver is dropped a stream hands out nothing more; what was in it is lost. */
  lemma {:induction false} ClosedIsSilent<T>(ch: Channel<T>, actions: seq<ChannelAction>)
    ensures var ch' := ChannelRun(ChannelStep(ch, Close), actions);
            !ch'.open && ch'.queue == [] && ch'.received == ch.received && ch.lost + ch.queue <= ch'.lost
  {
    SilentStays(ChannelStep(ch, Close), actions);
  }

  lemma {:induction false} SilentStays<T>(ch: Channel<T>, actions: seq<ChannelAction>)
    requires !ch.open && ch.queue == []
    ensures var ch' := ChannelRun(ch, actions);
            !ch'.open && ch'.queue == [] && ch'.received == ch.received && ch.lost <= ch'.lost
    decreases |actions|
  {
    if actions != [] { SilentStays(ChannelStep(ch, actions[0]), actions[1..]); }
  }

  /** Receiving, flushing and sending go on until an open channel is quiet, and bring everything to
      the client: the queue first, then the rest of the flush, then the pending sends. */
  lemma CanDrain<T>(ch: Channel<T>) returns (actions: seq<ChannelAction>)
    requires ch.open
    ensures DrivenActions(actions)
    ensures ChannelRun(ch, actions) ==
            ch.(flush := [], pending := [], queue := [], received := ch.received + ch.queue + ch.flush + ch.pending)
    decreases 2 * |ch.flush| + 2 * |ch.pending| + |ch.queue|
  {
    if Quiet(ch) {
      actions := [];
      assert ch.received + [] + [] + [] == ch.received;
    } else {
      var a := if ch.queue != [] then Receive else if ch.flush != [] then Flush else Deposit(0);
      DrainStep(ch, a);
      var rest := CanDrain(ChannelStep(ch, a));
      actions := [a] + rest;
      assert actions[1..] == rest;
    }
  }

  lemma DrainStep<T>(ch: Channel<T>, a: ChannelAction)
    requires ch.open && !Quiet(ch)
    requires a == if ch.queue != [] then Receive else if ch.flush != [] then Flush else Deposit(0)
    ensures var ch' := ChannelStep(ch, a);
            && ch' == ch.(flush := ch'.flush, pending := ch'.pending, queue := ch'.queue, received := ch'.received)
            && 2 * |ch'.flush| + 2 * |ch'.pending| + |ch'.queue| < 2 * |ch.flush| + 2 * |ch.pending| + |ch.queue|
            && ch'.received + ch'.queue + ch'.flush + ch'.pending == ch.received + ch.queue + ch.flush + ch.pending
  {
    if ch.queue != [] {
      assert ch.queue == [ch.queue[0]] + ch.queue[1..];
    } else if ch.flush != [] {
      assert ch.flush == [ch.flush[0]] + ch.flush[1..];
    } else {
      assert ch.pending == [ch.pending[0]] + ch.pending[1..];
      assert Without(ch.pending, 0) == ch.pending[1..];
    }
  }

  function OnChannel<T>(c: nat, actions: seq<ChannelAction>): seq<Action<T>> {
    seq(|actions|, i requires 0 <= i < |actions| => Chan(c, actions[i]))
  }

  lemma {:induction false} RunOnChannel<T>(run: seq<Action<T>>, c: nat, actions: seq<ChannelAction>)
    requires c < |Run(run).chans|
    ensures Run(run + OnChannel(c, actions)) ==
            Run(run).(chans := Run(run).chans[c := ChannelRun(Run(run).chans[c], actions)])
    decreases |actions|
  {
    if actions == [] {
      assert run + OnChannel(c, actions) == run;
    } else {
      var next := run + [Chan(c, actions[0])];
      assert next[..|run|] == run;
      RunOnChannel(next, c, actions[1..]);
      assert run + OnChannel(c, actions) == next + OnChannel(c, actions[1..]);
    }
  }

  /** From every driven run there is a driven way on after which the channel is quiet and its client
      has received everything that is due to it. */
  lemma EveryStreamCanDrain<T>(run: seq<Action<T>>, c: nat) returns (more: seq<Action<T>>)
    requires Driven(run) && c < |Run(run).chans|
    ensures Driven(run + more) && CallsOf(run + more) == CallsOf(run)
    ensures c < |Run(run + more).chans| && Quiet(Run(run + more).chans[c])
    ensures multiset(Run(run + more).chans[c].received) == Owed(CallsOf(run), c)
  {
    DrivenRunLosesNothing(run);
    var actions := CanDrain(Run(run).chans[c]);
    more := OnChannel(c, actions);
    RunOnChannel(run, c, actions);
    forall i | 0 <= i < |run + more|
      ensures (run + more)[i].Calls? || !((run + more)[i].action.Close? || (run + more)[i].action.Cancel?)
    {
      if i >= |run| { assert (run + more)[i] == Chan(c, actions[i - |run|]); }
    }
    RunConserves(run);
    RunConserves(run + more);
    QuietRunDelivers(run + more, c);
  }

  /** A subscription makes a new current channel, open and with nothing in it but, for the first
      one, the buffer to flush; the superseded channel has one warning more on its way, and no other
      channel is touched. */
  lemma SubscribeOpens<T>(s: Sink<T>)
    requires Invariant(s)
    ensures var s', c := SubscribeTo(s), |s.chans|;
            && |s'.chans| == c + 1 && s'.source == Sender(c) && s'.calls == s.calls + [Subscribe]
            && s'.chans[c].open && s'.chans[c].pending == [] && s'.chans[c].queue == []
            && s'.chans[c].received == [] && s'.chans[c].lost == []
            && s'.chans[c].flush == (if c == 0 then Buffered(s.calls) else [])
            && (c > 0 ==> s'.chans[c - 1] == s.chans[c - 1].(pending := s.chans[c - 1].pending + [Warning]))
            && forall i :: 0 <= i < c - 1 ==> s'.chans[i] == s.chans[i]
  {
  }

  // ------------------------------------------------------------------ one place for each value

  ghost function Ledgers<T>(chans: seq<Channel<T>>): multiset<Message<T>> {
    if chans == [] then multiset{} else Ledgers(chans[..|chans| - 1]) + Ledger(chans[|chans| - 1])
  }

  /** Everything a sink holds anywhere. */
  ghost function Contents<T>(s: Sink<T>): multiset<Message<T>> {
    (if s.source.Buffer? then multiset(s.source.items) else multiset{}) + Ledgers(s.chans)
  }

  lemma {:induction false} LedgersCount<T>(chans: seq<Channel<T>>, calls: seq<Call<T>>, n: nat, value: T)
    requires Accounted(chans, calls)
    ensures Ledgers(chans)[Item(n, value)] ==
              if n < |calls| && calls[n] == Push(value) && Generation(calls[..n]) < |chans| then 1 else 0
  {
    if chans != [] {
      var c := |chans| - 1;
      LedgersCount(chans[..c], calls, n, value);
      assert Ledger(chans[c]) == Owed(calls, c);
      OwedCounts(calls, c, n, value);
    }
  }

  lemma {:induction false} SubscriptionsGrow<T>(calls: seq<Call<T>>, n: nat)
    requires n <= |calls|
    ensures Subscriptions(calls[..n]) <= Subscriptions(calls)
  {
    if n == |calls| {
      assert calls[..n] == calls;
    } else {
      var before := calls[..|calls| - 1];
      SubscriptionsGrow(before, n);
      assert before[..n] == calls[..n];
    }
  }

  /** Each pushed value is in exactly one place of its sink, and nothing else is in any. */
  lemma EachPushHeldOnce<T>(s: Sink<T>, n: nat, value: T)
    requires Invariant(s)
    ensures Contents(s)[Item(n, value)] == if n < |s.calls| && s.calls[n] == Push(value) then 1 else 0
  {
    LedgersCount(s.chans, s.calls, n, value);
    if n < |s.calls| { SubscriptionsGrow(s.calls, n); }
    if s.source.Buffer? {
      BufferedShape(s.calls);
      OwedCounts(s.calls, 0, n, value);
    }
  }

  lemma LedgersSnoc<T>(chans: seq<Channel<T>>, ch: Channel<T>)
    ensures Ledgers(chans + [ch]) == Ledgers(chans) + Ledger(ch)
  {
    assert (chans + [ch])[..|chans|] == chans;
  }

  lemma LastLedgerAfter<T>(init: seq<Channel<T>>, last: Channel<T>, ch: Channel<T>, more: multiset<Message<T>>)
    requires Ledger(ch) == Ledger(last) + more
    ensures Ledgers(init + [ch]) == Ledgers(init + [last]) + more
  {
    LedgersSnoc(init, last);
    LedgersSnoc(init, ch);
  }

  lemma EarlierLedgersAfter<T>(init: seq<Channel<T>>, init': seq<Channel<T>>, last: Channel<T>,
                               more: multiset<Message<T>>)
    requires Ledgers(init') == Ledgers(init) + more
    ensures Ledgers(init' + [last]) == Ledgers(init + [last]) + more
  {
    LedgersSnoc(init, last);
    LedgersSnoc(init', last);
  }

  lemma {:induction false} LedgersAfter<T>(chans: seq<Channel<T>>, c: nat, ch: Channel<T>, more: multiset<Message<T>>)
    requires c < |chans| && Ledger(ch) == Ledger(chans[c]) + more
    ensures Ledgers(chans[c := ch]) == Ledgers(chans) + more
    decreases |chans|
  {
    var init, last := chans[..|chans| - 1], chans[|chans| - 1];
    assert chans == init + [last];
    if c == |init| {
      assert chans[c := ch] == init + [ch];
      LastLedgerAfter(init, last, ch, more);
    } else {
      assert chans[c := ch] == init[c := ch] + [last];
      LedgersAfter(init, c, ch, more);
      EarlierLedgersAfter(init, init[c := ch], last, more);
    }
  }

  /** A push adds one message to what its sink holds, whatever state the sink is in. */
  lemma PushAddsOne<T>(s: Sink<T>, value: T)
    requires WellFormed(s)
    ensures Contents(PushTo(s, value)) == Contents(s) + multiset{Item(|s.calls|, value)}
  {
    if s.source.Sender? {
      var c, m := s.source.chan, Item(|s.calls|, value);
      var ch := s.chans[c].(pending := s.chans[c].pending + [m]);
      LedgersAfter(s.chans, c, ch, multiset{m});
    }
  }

  /** Neither flushing nor sending, cancelling, receiving or closing changes it. */
  lemma ChannelStepKeepsContents<T>(s: Sink<T>, c: nat, a: ChannelAction)
    ensures Contents(Step(s, Chan(c, a))) == Contents(s)
  {
    if c < |s.chans| {
      ChannelStepKeepsLedger(s.chans[c], a);
      LedgersAfter(s.chans, c, ChannelStep(s.chans[c], a), multiset{});
    }
  }

  // ------------------------------------------------------------------ for the owner of a sink

  /** The sink is the outcome of some run, of a driven one if `driven`. */
  ghost predicate Reached<T(!new)>(s: Sink<T>, driven: bool) {
    exists run :: Run(run) == s && (driven ==> Driven(run))
  }

  lemma ReachedEmpty<T(!new)>(driven: bool)
    ensures Reached(EmptySink<T>(), driven)
  {
    assert Run<T>([]) == EmptySink<T>();
  }

  lemma ReachedStep<T(!new)>(s: Sink<T>, a: Action<T>, driven: bool)
    requires Reached(s, driven) && (driven ==> Driven([a]))
    ensures Reached(Step(s, a), driven)
  {
    var run :| Run(run) == s && (driven ==> Driven(run));
    assert (run + [a])[..|run|] == run && [a][0] == a;
    assert Run(run + [a]) == Step(s, a);
  }

  lemma ReachedHasInvariant<T(!new)>(s: Sink<T>, driven: bool)
    requires Reached(s, driven)
    ensures Invariant(s) && (driven ==> Intact(s.chans))
  {
    var run :| Run(run) == s && (driven ==> Driven(run));
    RunConserves(run);
    if driven { DrivenRunLosesNothing(run); }
  }

  /** `m` is somewhere in the sink. */
  ghost predicate Held<T>(s: Sink<T>, m: Message<T>) {
    || (s.source.Buffer? && m in s.source.items)
    || exists c :: 0 <= c < |s.chans| && m in Ledger(s.chans[c])
  }

  lemma {:induction false} BufferedWerePushed<T>(calls: seq<Call<T>>, m: Message<T>)
    requires m in Buffered(calls)
    ensures m.Item? && m.pos < |calls| && calls[m.pos] == Push(m.value)
  {
    var before := calls[..|calls| - 1];
    if m in Buffered(before) { BufferedWerePushed(before, m); }
  }

  /** Nothing is in a sink that was not pushed into it. */
  lemma HeldWasPushed<T>(s: Sink<T>, m: Message<T>)
    requires Invariant(s) && Held(s, m)
    ensures m.Warning? || (m.pos < |s.calls| && s.calls[m.pos] == Push(m.value))
  {
    if s.source.Buffer? && m in s.source.items {
      BufferedWerePushed(s.calls, m);
    } else if m.Item? {
      var c :| 0 <= c < |s.chans| && m in Ledger(s.chans[c]);
      OwedCounts(s.calls, c, m.pos, m.value);
    }
  }

  lemma {:induction false} OccursOnce<A>(s: seq<A>, x: nat, y: nat)
    requires x < y < |s| && s[x] == s[y]
    ensures multiset(s)[s[x]] >= 2
  {
    assert s == s[..y] + ([s[y]] + s[y + 1..]);
    assert s[x] in s[..y];
  }

  /** A pushed value comes out of at most one channel, at most once. */
  lemma ReceivedOnce<T>(s: Sink<T>, m: Message<T>, c: nat, x: nat, c': nat, x': nat)
    requires Invariant(s) && m.Item? && c < |s.chans| && c' < |s.chans|
    requires x < |s.chans[c].received| && s.chans[c].received[x] == m
    requires x' < |s.chans[c'].received| && s.chans[c'].received[x'] == m
    ensures c == c' && x == x'
  {
    assert m in Ledger(s.chans[c]) && m in Ledger(s.chans[c']);
    OwedCounts(s.calls, c, m.pos, m.value);
    OwedCounts(s.calls, c', m.pos, m.value);
    if x < x' { OccursOnce(s.chans[c].received, x, x'); }
    if x' < x { OccursOnce(s.chans[c].received, x', x); }
  }

  // ------------------------------------------------------------------ the object

  lemma PushKept<T>(s: Sink<T>, value: T, s': Sink<T>)
    requires Invariant(s) && s' == PushTo(s, value)
    ensures Invariant(s')
  {
    PushKeepsInvariant(s, value);
  }

  lemma SubscribeKept<T>(s: Sink<T>, s': Sink<T>)
    requires Invariant(s) && s' == SubscribeTo(s)
    ensures Invariant(s')
  {
    StepKeepsInvariant(s, Calls(Subscribe));
  }

  lemma ReceiveKept<T>(s: Sink<T>, c: nat, s': Sink<T>)
    requires Invariant(s) && s' == Step(s, Chan(c, Receive))
    ensures Invariant(s')
  {
    StepKeepsInvariant(s, Chan(c, Receive));
  }

  /** The `ServerSink` field of a session with the channels it handed out, updated in place. */
  class ServerSink<T> {
    var source: Source<T>
    var chans: seq<Channel<T>>
    var calls: seq<Call<T>>

    ghost function View(): Sink<T>
      reads this
    {
      Sink(source, chans, calls)
    }

    ghost predicate Valid()
      reads this
    {
      Invariant(View())
    }

    constructor ()
      ensures Valid() && View() == EmptySink()
    {
      source, chans, calls := Buffer([]), [], [];
      new;
      RunConserves<T>([]);
    }

    /** `push_event`, `push_call`: append to the buffer, or start a send on a clone of the sender. */
    method PushItem(value: T)
      requires Valid()
      modifies this
      ensures Valid() && View() == PushTo(old(View()), value)
    {
      ghost var before := View();
      assert WellFormed(before);
      var m := Item(|calls|, value);
      match source {
        case Buffer(items) => source := Buffer(items + [m]);
        case Sender(c) => chans := chans[c := chans[c].(pending := chans[c].pending + [m])];
      }
      calls := calls + [Push(value)];
      PushKept(before, value, View());
    }

    /** `events`, `checkin_app`: replace the sink by a new sender; warn the superseded channel or
        spawn the flush of the buffer. The new channel is the result. */
    method NewStream() returns (c: nat)
      requires Valid()
      modifies this
      ensures Valid() && View() == SubscribeTo(old(View())) && c == |old(chans)| < |chans|
    {
      ghost var before := View();
      assert WellFormed(before);
      c := |chans|;
      match source {
        case Buffer(items) => chans := chans + [NewChannel(items)];
        case Sender(prev) =>
          chans := chans[prev := chans[prev].(pending := chans[prev].pending + [Warning])];
          chans := chans + [NewChannel([])];
      }
      source := Sender(c);
      calls := calls + [Subscribe];
      SubscribeKept(before, View());
    }

    /** The client takes the next message off channel `c`. */
    method Next(c: nat) returns (m: Option<Message<T>>)
      requires Valid() && c < |chans|
      modifies this
      ensures Valid() && View() == Step(old(View()), Chan(c, Receive))
      ensures m == if old(chans)[c].queue == [] then None else Some(old(chans)[c].queue[0])
      ensures m.Some? ==> chans[c].received == old(chans)[c].received + [m.value]
    {
      ghost var before := View();
      var ch := chans[c];
      if ch.queue == [] {
        m := None;
        assert chans[c := ch] == chans;
      } else {
        m := Some(ch.queue[0]);
        chans := chans[c := ch.(received := ch.received + [ch.queue[0]], queue := ch.queue[1..])];
      }
      ReceiveKept(before, c, View());
    }
  }
}
