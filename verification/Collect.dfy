/** `collect_results` and `collect_results2`: wait for all futures, whether they succeed or fail,
    and return their results in the original order. The first selects one finished future at a
    time, the second polls all unfinished ones in rounds; neither controls the order in which the
    futures finish. */
module Collect {
  import opened Prelude

  /** A result together with the original position of its future. */
  datatype Tagged<R> = Tagged(idx: nat, res: R)

  /** A future: what it resolves to, and the first polling round that finds it ready. */
  datatype Future<R> = Future(outcome: R, readyAt: nat)

  function Tags<R>(outcomes: seq<R>): seq<Tagged<R>> {
    seq(|outcomes|, i requires 0 <= i < |outcomes| => Tagged(i, outcomes[i]))
  }

  function Outcomes<R>(futures: seq<Future<R>>): seq<R> {
    seq(|futures|, i requires 0 <= i < |futures| => futures[i].outcome)
  }

  function Untagged<R>(s: seq<Tagged<R>>): seq<R> {
    seq(|s|, i requires 0 <= i < |s| => s[i].res)
  }

  // ------------------------------------------------------------------ sorting by index

  ghost predicate Sorted<R>(s: seq<Tagged<R>>) {
    forall i, j :: 0 <= i < j < |s| ==> s[i].idx <= s[j].idx
  }

  ghost predicate StrictlySorted<R>(s: seq<Tagged<R>>) {
    forall i, j :: 0 <= i < j < |s| ==> s[i].idx < s[j].idx
  }

  function InsertByIndex<R>(s: seq<Tagged<R>>, x: Tagged<R>): seq<Tagged<R>> {
    if s == [] || x.idx <= s[0].idx then [x] + s else [s[0]] + InsertByIndex(s[1..], x)
  }

  lemma {:induction false} InsertKeepsSorted<R>(s: seq<Tagged<R>>, x: Tagged<R>)
    requires Sorted(s)
    ensures multiset(InsertByIndex(s, x)) == multiset(s) + multiset{x}
    ensures Sorted(InsertByIndex(s, x))
  {
    if s != [] && x.idx > s[0].idx {
      InsertKeepsSorted(s[1..], x);
      assert s == [s[0]] + s[1..];
      SmallestFirst(s[0], s[1..], x, InsertByIndex(s[1..], x));
    }
  }

  lemma SmallestFirst<R>(first: Tagged<R>, s: seq<Tagged<R>>, x: Tagged<R>, rest: seq<Tagged<R>>)
    requires Sorted(rest) && multiset(rest) == multiset(s) + multiset{x}
    requires first.idx <= x.idx && forall j :: 0 <= j < |s| ==> first.idx <= s[j].idx
    ensures Sorted([first] + rest)
  {
    forall j | 0 <= j < |rest| ensures first.idx <= rest[j].idx {
      assert rest[j] in multiset(rest);
      assert rest[j] == x || rest[j] in s;
    }
  }

  /** Stands for the in-place `sort_unstable_by` on the index. */
  method SortByIndex<R>(v: seq<Tagged<R>>) returns (s: seq<Tagged<R>>)
    ensures Sorted(s) && multiset(s) == multiset(v)
  {
    s := [];
    for i := 0 to |v|
      invariant Sorted(s) && multiset(s) == multiset(v[..i])
    {
      InsertKeepsSorted(s, v[i]);
      s := InsertByIndex(s, v[i]);
      assert v[..i + 1] == v[..i] + [v[i]];
    }
    assert v[..|v|] == v;
  }

  lemma SameHead<R>(s: seq<Tagged<R>>, t: seq<Tagged<R>>)
    requires Sorted(s) && StrictlySorted(t) && multiset(s) == multiset(t) && s != [] && t != []
    ensures s[0] == t[0]
  {
    assert s[0] in multiset(t) && t[0] in multiset(s);
    var k :| 0 <= k < |t| && t[k] == s[0];
    var m :| 0 <= m < |s| && s[m] == t[0];
  }

  lemma TailContents<A>(s: seq<A>)
    requires s != []
    ensures multiset(s[1..]) == multiset(s) - multiset{s[0]}
  {
    assert s == [s[0]] + s[1..];
  }

  /** Sorting is determined by the contents when no two indices are equal. */
  lemma {:induction false} SortedUnique<R>(s: seq<Tagged<R>>, t: seq<Tagged<R>>)
    requires Sorted(s) && StrictlySorted(t) && multiset(s) == multiset(t)
    ensures s == t
  {
    assert |s| == |multiset(s)| == |t|;
    if s != [] {
      SameHead(s, t);
      TailContents(s);
      TailContents(t);
      SortedUnique(s[1..], t[1..]);
      assert s == [s[0]] + s[1..] && t == [t[0]] + t[1..];
    }
  }

  lemma AllFinished<R>(outcomes: seq<R>, sorted: seq<Tagged<R>>)
    requires Sorted(sorted) && multiset(sorted) == multiset(Tags(outcomes))
    ensures Untagged(sorted) == outcomes
  {
    SortedUnique(sorted, Tags(outcomes));
  }

  // ------------------------------------------------------------------ the two schedulers

  /** The select loop. `position` is whichever pending future finishes next: nothing is known
      about it, so the result holds for every completion order. */
  method CollectResults<R>(outcomes: seq<R>) returns (results: seq<R>)
    ensures results == outcomes
  {
    if outcomes == [] { return []; }
    var finished: seq<Tagged<R>>, pending := [], Tags(outcomes);
    while pending != []
      invariant multiset(finished) + multiset(pending) == multiset(Tags(outcomes))
      decreases |pending|
    {
      var position :| 0 <= position < |pending|;
      WithoutContents(pending, position);
      finished, pending := finished + [pending[position]], Without(pending, position);
    }
    var sorted := SortByIndex(finished);
    AllFinished(outcomes, sorted);
    results := Untagged(sorted);
  }

  /** The unfinished futures a round leaves, in order. */
  function StillWaiting<R>(input: seq<Tagged<R>>, ready: nat -> bool): seq<Tagged<R>> {
    if input == [] then [] else
    var last := input[|input| - 1];
    StillWaiting(input[..|input| - 1], ready) + if ready(last.idx) then [] else [last]
  }

  function NowReady<R>(input: seq<Tagged<R>>, ready: nat -> bool): seq<Tagged<R>> {
    if input == [] then [] else
    var last := input[|input| - 1];
    NowReady(input[..|input| - 1], ready) + if ready(last.idx) then [last] else []
  }

  lemma {:induction false} RoundSplits<R>(input: seq<Tagged<R>>, ready: nat -> bool)
    ensures multiset(StillWaiting(input, ready)) + multiset(NowReady(input, ready)) == multiset(input)
  {
    if input != [] {
      var init, last := input[..|input| - 1], input[|input| - 1];
      RoundSplits(init, ready);
      var waiting, done := StillWaiting(init, ready), NowReady(init, ready);
      assert input == init + [last];
      assert multiset(waiting + [last]) == multiset(waiting) + multiset{last};
      assert multiset(done + [last]) == multiset(done) + multiset{last};
    }
  }

  /** Polls each future once, in order. */
  method PollAll<R>(input: seq<Tagged<R>>, ready: nat -> bool) returns (waiting: seq<Tagged<R>>, done: seq<Tagged<R>>)
    ensures waiting == StillWaiting(input, ready)
    ensures multiset(waiting) + multiset(done) == multiset(input)
  {
    waiting, done := [], [];
    for i := 0 to |input|
      invariant waiting == StillWaiting(input[..i], ready) && done == NowReady(input[..i], ready)
    {
      assert input[..i + 1][..i] == input[..i];
      if ready(input[i].idx) { done := done + [input[i]]; } else { waiting := waiting + [input[i]]; }
    }
    assert input[..|input|] == input;
    RoundSplits(input, ready);
  }

  /** The state of the future that `collect_results2` returns. */
  class Collector<R> {
    ghost const outcomes: seq<R>
    var input: seq<Tagged<R>>
    var output: seq<Tagged<R>>

    ghost predicate Valid()
      reads this
    {
      multiset(input) + multiset(output) == multiset(Tags(outcomes))
    }

    constructor (outcomes: seq<R>)
      ensures Valid() && this.outcomes == outcomes && input == Tags(outcomes) && output == []
    {
      this.outcomes := outcomes;
      input, output := Tags(outcomes), [];
    }

    /** One poll: every unfinished future is polled once, the finished ones move to the output.
        When none is left the sorted output is the result. */
    method Poll(ready: nat -> bool) returns (result: Option<seq<R>>)
      requires Valid()
      modifies this
      ensures result == if StillWaiting(old(input), ready) == [] then Some(outcomes) else None
      ensures result.None? ==> Valid() && input == StillWaiting(old(input), ready)
    {
      var waiting, done := PollAll(input, ready);
      output := output + done;
      if waiting == [] {
        var sorted := SortByIndex(output);
        AllFinished(outcomes, sorted);
        output := [];
        result := Some(Untagged(sorted));
      } else {
        input := waiting;
        result := None;
      }
    }
  }

  lemma {:induction false} WaitingAre<R>(input: seq<Tagged<R>>, ready: nat -> bool, x: Tagged<R>)
    ensures x in StillWaiting(input, ready) <==> x in input && !ready(x.idx)
  {
    if input != [] {
      var init, last := input[..|input| - 1], input[|input| - 1];
      assert input == init + [last];
      WaitingAre(init, ready, x);
    }
  }

  function LastRound<R>(futures: seq<Future<R>>): (r: nat)
    ensures forall i :: 0 <= i < |futures| ==> futures[i].readyAt <= r
  {
    if futures == [] then 0 else
    var n, last := LastRound(futures[..|futures| - 1]), futures[|futures| - 1].readyAt;
    if n < last then last else n
  }

  function ReadyBy<R>(futures: seq<Future<R>>, round: nat): nat -> bool {
    (idx: nat) => idx < |futures| && futures[idx].readyAt <= round
  }

  /** The polling rounds, for every schedule that finishes each future eventually. */
  method CollectResults2<R>(futures: seq<Future<R>>) returns (results: seq<R>)
    ensures results == Outcomes(futures)
  {
    var collector := new Collector<R>(Outcomes(futures));
    var round := 0;
    var result := collector.Poll(ReadyBy(futures, round));
    ghost var asked := Tags(Outcomes(futures));
    while result.None?
      invariant result.None? ==> collector.Valid() && collector.outcomes == Outcomes(futures)
      invariant result.None? ==> collector.input == StillWaiting(asked, ReadyBy(futures, round)) != []
      invariant result.None? ==> forall x :: x in asked ==> x in Tags(Outcomes(futures))
      invariant result.Some? ==> result.value == Outcomes(futures)
      decreases result.None?, LastRound(futures) - round
    {
      var x := collector.input[0];
      WaitingAre(asked, ReadyBy(futures, round), x);
      assert round < futures[x.idx].readyAt <= LastRound(futures);
      forall y | y in collector.input ensures y in Tags(Outcomes(futures)) {
        WaitingAre(asked, ReadyBy(futures, round), y);
      }
      asked := collector.input;
      round := round + 1;
      result := collector.Poll(ReadyBy(futures, round));
    }
    results := result.value;
  }
}
