/** The bookkeeping of one round of `rag_stream`, as values: N histories
    (the three hard-coded ones generalised), the events consumed from each
    source, the set of sources still pending, and the snapshots yielded so
    far. Which pending source fires next is the arrival order, a parameter;
    given that order everything else is determined. */
module Round {
  import opened Chat
  import opened Source

  datatype State = State(
    hists: seq<History>,        // the histories, edited in place by the round
    pulled: seq<nat>,           // events already consumed from each source
    pending: set<nat>,          // sources with a task in flight (`tasks`)
    output: seq<seq<History>>)  // every `yield` so far, in order

  /** What one arrival needs: one entry per source, and each pending source
      has an event left and a placeholder to write into. */
  predicate WellFormed(scripts: seq<Script>, st: State)
  {
    && |st.hists| == |scripts| && |st.pulled| == |scripts|
    && forall i :: i in st.pending ==>
         i < |scripts| && st.pulled[i] < EventCount(scripts[i]) && |st.hists[i]| > 0
  }

  /** One completed task of source `i` is handled: a value replaces the
      content of `i`'s last turn, is yielded, and `i` stays pending; the end
      of the stream drops `i` and yields nothing; a failure writes the error
      text, is yielded, and drops `i`. Nothing but `i`'s last content, `i`'s
      count and `i`'s membership in the pending set changes. A source that
      is not pending has no task, so nothing happens. */
  function Arrive(scripts: seq<Script>, st: State, i: nat): (r: State)
    requires WellFormed(scripts, st)
    ensures WellFormed(scripts, r)
    ensures i !in st.pending ==> r == st
    ensures i in st.pending ==>
      var n := |st.hists[i]|;
      && r.pulled == st.pulled[i := st.pulled[i] + 1]
      && |r.hists| == |st.hists|
      && (forall j :: 0 <= j < |st.hists| && j != i ==> r.hists[j] == st.hists[j])
      && |r.hists[i]| == n
      && r.hists[i][..n - 1] == st.hists[i][..n - 1]
      && r.hists[i][n - 1].role == st.hists[i][n - 1].role
      && match NextEvent(scripts[i], st.pulled[i])
         case Yielded(t) =>
           r.hists[i][n - 1].content == t && r.pending == st.pending
           && r.output == st.output + [r.hists]
         case Stopped =>
           r.hists == st.hists && r.pending == st.pending - {i} && r.output == st.output
         case Failed =>
           r.hists[i][n - 1].content == ErrorMessage && r.pending == st.pending - {i}
           && r.output == st.output + [r.hists]
  {
    if i !in st.pending then st
    else
      var pulled := st.pulled[i := st.pulled[i] + 1];
      var popped := st.pending - {i};
      match NextEvent(scripts[i], st.pulled[i])
      case Yielded(t) =>
        var hs := st.hists[i := SetContent(st.hists[i], t)];
        State(hs, pulled, popped + {i}, st.output + [hs])
      case Stopped =>
        State(st.hists, pulled, popped, st.output)
      case Failed =>
        var hs := st.hists[i := SetContent(st.hists[i], ErrorMessage)];
        State(hs, pulled, popped, st.output + [hs])
  }

  /** The round handles the arrivals in `order`, one at a time. */
  function Run(scripts: seq<Script>, st: State, order: seq<nat>): (r: State)
    requires WellFormed(scripts, st)
    ensures WellFormed(scripts, r)
    ensures |r.output| >= |st.output| && r.output[..|st.output|] == st.output
    ensures forall i :: 0 <= i < |scripts| ==> r.pulled[i] >= st.pulled[i]
    decreases |order|
  {
    if order == [] then st
    else Run(scripts, Arrive(scripts, st, order[0]), order[1..])
  }

  lemma {:induction false} RunSnoc(scripts: seq<Script>, st: State, order: seq<nat>, i: nat)
    requires WellFormed(scripts, st)
    ensures Run(scripts, st, order + [i]) == Arrive(scripts, Run(scripts, st, order), i)
    decreases |order|
  {
    if order == [] {
      assert ([] + [i])[1..] == [];
    } else {
      assert (order + [i])[0] == order[0];
      assert (order + [i])[1..] == order[1..] + [i];
      RunSnoc(scripts, Arrive(scripts, st, order[0]), order[1..], i);
    }
  }

  /** How a history looks while the round runs: the turns it had before the
      round, the user's query, and the assistant turn showing what the
      source has produced after `k` events. */
  function Rendered(query: string, prior: History, s: Script, k: nat): History
    requires k <= EventCount(s)
  {
    prior + [UserTurn(query), Turn(Assistant, Shown(s, k))]
  }

  /** The shape every yielded snapshot has: one history per source, each the
      prior history plus the user's turn plus one assistant turn. */
  predicate Shaped(query: string, prior: seq<History>, hs: seq<History>)
  {
    && |hs| == |prior|
    && forall i :: 0 <= i < |prior| ==>
         && |hs[i]| == |prior[i]| + 2
         && hs[i][..|prior[i]| + 1] == prior[i] + [UserTurn(query)]
         && hs[i][|prior[i]| + 1].role == Assistant
  }

  /** The progress every snapshot shows: `marks[j][i]` events of source `i`
      had been handled when snapshot `j` was yielded, its history for `i` is
      the rendering for that many events, no snapshot is ahead of the counts
      `pulled`, and along the output no source ever moves back. */
  predicate Marked(query: string, prior: seq<History>, scripts: seq<Script>, pulled: seq<nat>,
                   output: seq<seq<History>>, marks: seq<seq<nat>>)
  {
    && |prior| == |scripts| && |pulled| == |scripts| && |marks| == |output|
    && (forall j :: 0 <= j < |marks| ==>
          && |marks[j]| == |scripts| && |output[j]| == |scripts|
          && forall i :: 0 <= i < |scripts| ==>
               && marks[j][i] <= pulled[i] && marks[j][i] <= EventCount(scripts[i])
               && output[j][i] == Rendered(query, prior[i], scripts[i], marks[j][i]))
    && (forall j1, j2 :: 0 <= j1 < j2 < |marks| ==>
          forall i :: 0 <= i < |marks[j1]| && i < |marks[j2]| ==> marks[j1][i] <= marks[j2][i])
  }

  /** Snapshots stay marked when the counts move on. */
  lemma MarkedGrow(query: string, prior: seq<History>, scripts: seq<Script>, pulled: seq<nat>, pulled': seq<nat>,
                   output: seq<seq<History>>, marks: seq<seq<nat>>)
    requires Marked(query, prior, scripts, pulled, output, marks)
    requires |pulled'| == |scripts| && forall i :: 0 <= i < |scripts| ==> pulled[i] <= pulled'[i]
    ensures Marked(query, prior, scripts, pulled', output, marks)
  {
  }

  /** Yielding the histories as they are now, rendered for the counts
      `pulled'`, appends one snapshot marked with those counts. */
  lemma MarkedSnoc(query: string, prior: seq<History>, scripts: seq<Script>, pulled: seq<nat>, pulled': seq<nat>,
                   output: seq<seq<History>>, marks: seq<seq<nat>>, hs: seq<History>)
    requires Marked(query, prior, scripts, pulled, output, marks)
    requires |pulled'| == |scripts| && |hs| == |scripts|
    requires forall i :: 0 <= i < |scripts| ==>
               && pulled[i] <= pulled'[i] <= EventCount(scripts[i])
               && hs[i] == Rendered(query, prior[i], scripts[i], pulled'[i])
    ensures Marked(query, prior, scripts, pulled', output + [hs], marks + [pulled'])
  {
    var output', marks' := output + [hs], marks + [pulled'];
    forall j | 0 <= j < |marks'|
      ensures && |marks'[j]| == |scripts| && |output'[j]| == |scripts|
              && forall i :: 0 <= i < |scripts| ==>
                   && marks'[j][i] <= pulled'[i] && marks'[j][i] <= EventCount(scripts[i])
                   && output'[j][i] == Rendered(query, prior[i], scripts[i], marks'[j][i])
    {
      if j < |marks| {
        assert marks'[j] == marks[j] && output'[j] == output[j];
      }
    }
    forall j1, j2 | 0 <= j1 < j2 < |marks'|
      ensures forall i :: 0 <= i < |marks'[j1]| && i < |marks'[j2]| ==> marks'[j1][i] <= marks'[j2][i]
    {
      assert marks'[j1] == marks[j1];
      if j2 < |marks| {
        assert marks'[j2] == marks[j2];
      }
    }
  }

  /** The round invariant: each history is its rendering for the events
      consumed so far, a source is pending exactly while it has an event
      left, every snapshot yielded so far has the round's shape, and the
      snapshots show each source's progress in order. */
  ghost predicate Inv(query: string, prior: seq<History>, scripts: seq<Script>, st: State)
  {
    && |prior| == |scripts| && |st.hists| == |scripts| && |st.pulled| == |scripts|
    && (forall i :: i in st.pending ==> i < |scripts|)
    && (forall i :: 0 <= i < |scripts| ==>
          && st.pulled[i] <= EventCount(scripts[i])
          && (i in st.pending <==> st.pulled[i] < EventCount(scripts[i]))
          && st.hists[i] == Rendered(query, prior[i], scripts[i], st.pulled[i]))
    && (forall j :: 0 <= j < |st.output| ==> Shaped(query, prior, st.output[j]))
    && (exists marks :: Marked(query, prior, scripts, st.pulled, st.output, marks))
  }

  lemma InvWellFormed(query: string, prior: seq<History>, scripts: seq<Script>, st: State)
    requires Inv(query, prior, scripts, st)
    ensures WellFormed(scripts, st)
  {
  }

  function Indices(n: nat): (r: set<nat>)
    ensures forall i: nat :: i in r <==> i < n
  {
    if n == 0 then {} else Indices(n - 1) + {n - 1}
  }

  /** The histories after the round's first step: every one gets the user's
      query and then an empty assistant placeholder. */
  function Prepared(query: string, prior: seq<History>): seq<History>
  {
    seq(|prior|, i requires 0 <= i < |prior| => prior[i] + [UserTurn(query), Placeholder])
  }

  /** The state when the sources have just been opened: all pending,
      nothing consumed, nothing yielded. */
  function Start(query: string, prior: seq<History>): (r: State)
  {
    State(Prepared(query, prior), Zeros(|prior|), Indices(|prior|), [])
  }

  lemma StartInv(query: string, prior: seq<History>, scripts: seq<Script>)
    requires |prior| == |scripts|
    ensures Inv(query, prior, scripts, Start(query, prior))
  {
    assert Marked(query, prior, scripts, Zeros(|prior|), [], []);
  }

  /** Histories that are all renderings have the round's shape. */
  lemma RenderedShaped(query: string, prior: seq<History>, scripts: seq<Script>, hs: seq<History>, pulled: seq<nat>)
    requires |prior| == |scripts| && |hs| == |scripts| && |pulled| == |scripts|
    requires forall i :: 0 <= i < |scripts| ==>
               pulled[i] <= EventCount(scripts[i]) && hs[i] == Rendered(query, prior[i], scripts[i], pulled[i])
    ensures Shaped(query, prior, hs)
  {
    forall i | 0 <= i < |prior|
      ensures hs[i][..|prior[i]| + 1] == prior[i] + [UserTurn(query)]
    {
      assert hs[i][..|prior[i]| + 1] == (prior[i] + [UserTurn(query)] + [Turn(Assistant, Shown(scripts[i], pulled[i]))])[..|prior[i]| + 1];
    }
  }

  /** The firing source's history is rendered for one more event. */
  lemma ArriveRendered(query: string, prior: seq<History>, scripts: seq<Script>, st: State, i: nat)
    requires Inv(query, prior, scripts, st) && i in st.pending
    ensures Arrive(scripts, st, i).hists[i] == Rendered(query, prior[i], scripts[i], st.pulled[i] + 1)
  {
    InvWellFormed(query, prior, scripts, st);
    var r := Arrive(scripts, st, i);
    var k := st.pulled[i];
    ShownNext(scripts[i], k);
    var n := |st.hists[i]|;
    assert r.hists[i] == r.hists[i][..n - 1] + [r.hists[i][n - 1]];
  }

  /** One arrival keeps the round invariant. */
  lemma ArriveInv(query: string, prior: seq<History>, scripts: seq<Script>, st: State, i: nat)
    requires Inv(query, prior, scripts, st)
    ensures Inv(query, prior, scripts, Arrive(scripts, st, i))
  {
    InvWellFormed(query, prior, scripts, st);
    if i in st.pending {
      var r := Arrive(scripts, st, i);
      ArriveRendered(query, prior, scripts, st, i);
      forall j | 0 <= j < |scripts|
        ensures && r.pulled[j] <= EventCount(scripts[j])
                && (j in r.pending <==> r.pulled[j] < EventCount(scripts[j]))
                && r.hists[j] == Rendered(query, prior[j], scripts[j], r.pulled[j])
      {
      }
      RenderedShaped(query, prior, scripts, r.hists, r.pulled);
      var marks :| Marked(query, prior, scripts, st.pulled, st.output, marks);
      if r.output == st.output {
        MarkedGrow(query, prior, scripts, st.pulled, r.pulled, st.output, marks);
      } else {
        MarkedSnoc(query, prior, scripts, st.pulled, r.pulled, st.output, marks, r.hists);
        assert r.output == st.output + [r.hists];
      }
    }
  }

  /** One arrival of a pending source uses up exactly one of the events left
      and turns one owed snapshot into a yielded one, unless the event was the
      normal end of the stream, which yields nothing and owes nothing. */
  lemma ArriveCounts(scripts: seq<Script>, st: State, i: nat)
    requires WellFormed(scripts, st) && i in st.pending
    ensures var r := Arrive(scripts, st, i);
            && Remaining(scripts, r.pulled) + 1 == Remaining(scripts, st.pulled)
            && |r.output| + Owed(scripts, r.pulled) == |st.output| + Owed(scripts, st.pulled)
  {
    var k := st.pulled[i];
    OwedNext(scripts[i], k);
    TallyUpdate(LeftFrom, scripts, st.pulled, i, k + 1);
    TallyUpdate(OwedFrom, scripts, st.pulled, i, k + 1);
  }

  /** Over any arrival order, a snapshot yielded is a snapshot no longer
      owed: their sum never changes. */
  lemma {:induction false} RunConserves(scripts: seq<Script>, st: State, order: seq<nat>)
    requires WellFormed(scripts, st)
    ensures var r := Run(scripts, st, order);
            |r.output| + Owed(scripts, r.pulled) == |st.output| + Owed(scripts, st.pulled)
    decreases |order|
  {
    if order != [] {
      if order[0] in st.pending {
        ArriveCounts(scripts, st, order[0]);
      }
      RunConserves(scripts, Arrive(scripts, st, order[0]), order[1..]);
    }
  }

  /** Runs keep the round invariant. */
  lemma {:induction false} RunInv(query: string, prior: seq<History>, scripts: seq<Script>, st: State, order: seq<nat>)
    requires Inv(query, prior, scripts, st)
    ensures Inv(query, prior, scripts, Run(scripts, st, order))
    decreases |order|
  {
    if order != [] {
      ArriveInv(query, prior, scripts, st, order[0]);
      RunInv(query, prior, scripts, Arrive(scripts, st, order[0]), order[1..]);
    }
  }

  /** A possible arrival order from a state with counts `pulled`: it names
      only real sources, and each source exactly as often as it still has
      events to deliver. Any interleaving of the sources is one. */
  predicate ValidOrder(scripts: seq<Script>, pulled: seq<nat>, order: seq<nat>)
    requires |pulled| == |scripts|
  {
    && (forall k :: 0 <= k < |order| ==> order[k] < |scripts|)
    && (forall i: nat :: i < |scripts| ==> multiset(order)[i] == LeftFrom(scripts[i], pulled[i]))
  }

  /** Along a possible arrival order every arrival is of a pending source,
      so the round ends with no source pending, every source consumed to its
      end, and one step per event that was left. */
  lemma {:induction false} RunValidCompletes(query: string, prior: seq<History>, scripts: seq<Script>, st: State, order: seq<nat>)
    requires Inv(query, prior, scripts, st)
    requires ValidOrder(scripts, st.pulled, order)
    ensures var r := Run(scripts, st, order);
            && r.pending == {}
            && (forall i :: 0 <= i < |scripts| ==> r.pulled[i] == EventCount(scripts[i]))
            && |order| == Remaining(scripts, st.pulled)
    decreases |order|
  {
    if order == [] {
      forall i | 0 <= i < |scripts| ensures LeftFrom(scripts[i], st.pulled[i]) == 0 {
        assert multiset(order)[i as nat] == 0;
      }
      TallyZero(LeftFrom, scripts, st.pulled);
    } else {
      var x := order[0];
      assert order == [x] + order[1..];
      assert multiset(order) == multiset{x} + multiset(order[1..]);
      assert x < |scripts|;
      assert x in st.pending;
      InvWellFormed(query, prior, scripts, st);
      var st' := Arrive(scripts, st, x);
      ArriveInv(query, prior, scripts, st, x);
      ArriveCounts(scripts, st, x);
      forall i: nat | i < |scripts|
        ensures multiset(order[1..])[i] == LeftFrom(scripts[i], st'.pulled[i])
      {
      }
      RunValidCompletes(query, prior, scripts, st', order[1..]);
    }
  }

  /** Every source has one event per value plus its final one. */
  lemma {:induction false} RemainingAtStart(scripts: seq<Script>)
    ensures Remaining(scripts, Zeros(|scripts|)) == Successes(scripts) + |scripts|
  {
    if scripts != [] {
      RemainingAtStart(scripts[1..]);
      assert Zeros(|scripts|)[1..] == Zeros(|scripts| - 1);
    }
  }

  /** The bookkeeping of a whole round, for any possible arrival order:
      it ends with no source pending after one step per event; the snapshots
      yielded number the values of all sources plus one per failing source;
      every snapshot has the round's shape; and each history ends with the
      user's query and the source's final answer, whatever the order. */
  lemma RoundComplete(query: string, prior: seq<History>, scripts: seq<Script>, order: seq<nat>)
    requires |prior| == |scripts|
    requires ValidOrder(scripts, Zeros(|scripts|), order)
    ensures var r := Run(scripts, Start(query, prior), order);
            && r.pending == {}
            && |order| == Successes(scripts) + |scripts|
            && |r.output| == Successes(scripts) + Failures(scripts)
            && (forall j :: 0 <= j < |r.output| ==> Shaped(query, prior, r.output[j]))
            && (exists marks :: Marked(query, prior, scripts, r.pulled, r.output, marks))
            && |r.hists| == |prior|
            && (forall i :: 0 <= i < |prior| ==>
                  r.hists[i] == prior[i] + [UserTurn(query), Turn(Assistant, FinalText(scripts[i]))])
  {
    var st := Start(query, prior);
    assert st.pulled == Zeros(|scripts|) && st.output == [];
    StartInv(query, prior, scripts);
    RunInv(query, prior, scripts, st, order);
    RunValidCompletes(query, prior, scripts, st, order);
    RemainingAtStart(scripts);
    OwedAtStart(scripts);
    var r := Run(scripts, st, order);
    RunConserves(scripts, st, order);
    forall i | 0 <= i < |scripts|
      ensures OwedFrom(scripts[i], r.pulled[i]) == 0
      ensures r.hists[i] == prior[i] + [UserTurn(query), Turn(Assistant, FinalText(scripts[i]))]
    {
      FinalShown(scripts[i]);
    }
    TallyZero(OwedFrom, scripts, r.pulled);
  }

  /** Step 3 of a round: each backend is called with the query, the shared
      context and its history as it stood before the round. */
  function Opened(query: string, ctx: string, prior: seq<History>, backends: seq<Backend>): seq<Script>
    requires |backends| == |prior|
  {
    seq(|prior|, i requires 0 <= i < |prior| => backends[i](query, ctx, prior[i]))
  }

  /** The final state of a round over `prior` with context `ctx`, when the
      sources' events arrive in `order`. Whatever the order, every snapshot
      has the round's shape, snapshots show each source's progress in order,
      and there are at most as many as the sources' values plus their
      failures. */
  function RoundOf(query: string, ctx: string, prior: seq<History>, backends: seq<Backend>, order: seq<nat>): (r: State)
    requires |backends| == |prior|
    ensures var scripts := Opened(query, ctx, prior, backends);
            && (forall j :: 0 <= j < |r.output| ==> Shaped(query, prior, r.output[j]))
            && (exists marks :: Marked(query, prior, scripts, r.pulled, r.output, marks))
            && |r.output| <= Successes(scripts) + Failures(scripts)
  {
    var scripts := Opened(query, ctx, prior, backends);
    var st := Start(query, prior);
    StartInv(query, prior, scripts);
    InvWellFormed(query, prior, scripts, st);
    RunInv(query, prior, scripts, st, order);
    RunConserves(scripts, st, order);
    OwedAtStart(scripts);
    Run(scripts, st, order)
  }

  /** The counts after the arrivals in `order`: each source has moved on by
      the number of times `order` names it. */
  predicate Tracks(scripts: seq<Script>, before: seq<nat>, after: seq<nat>, order: seq<nat>)
  {
    && |before| == |scripts| && |after| == |scripts|
    && (forall k :: 0 <= k < |order| ==> order[k] < |scripts|)
    && (forall j: nat :: j < |scripts| ==> after[j] == before[j] + multiset(order)[j])
  }

  /** Naming source `i` once more in the order moves `i`'s count on by one. */
  lemma TracksSnoc(scripts: seq<Script>, before: seq<nat>, mid: seq<nat>, after: seq<nat>, order: seq<nat>, i: nat)
    requires Tracks(scripts, before, mid, order) && i < |scripts| && |after| == |scripts|
    requires forall j: nat :: j < |scripts| ==> after[j] == mid[j] + (if j == i then 1 else 0)
    ensures Tracks(scripts, before, after, order + [i])
  {
    assert multiset(order + [i]) == multiset(order) + multiset{i};
    forall k | 0 <= k < |order| + 1 ensures (order + [i])[k] < |scripts| {
      if k < |order| {
        assert (order + [i])[k] == order[k];
      }
    }
  }

  /** One more arrival of a pending source moves that source's count on by one, keeps the yielded-plus-owed sum
      and uses up one event. */
  lemma DrainStep(scripts: seq<Script>, start: State, order: seq<nat>, st: State, i: nat)
    requires WellFormed(scripts, st)
    requires Tracks(scripts, start.pulled, st.pulled, order)
    requires i in st.pending
    requires |st.output| + Owed(scripts, st.pulled) == |start.output| + Owed(scripts, start.pulled)
    ensures var r := Arrive(scripts, st, i);
            && Tracks(scripts, start.pulled, r.pulled, order + [i])
            && |r.output| + Owed(scripts, r.pulled) == |start.output| + Owed(scripts, start.pulled)
            && Remaining(scripts, r.pulled) < Remaining(scripts, st.pulled)
  {
    ArriveCounts(scripts, st, i);
    var r := Arrive(scripts, st, i);
    TracksSnoc(scripts, start.pulled, st.pulled, r.pulled, order, i);
  }

  /** Three sources: the first yields "Hi" and "Hi there" and stops, the
      second raises at once, the third yields "OK" and stops. Whatever the
      arrival order, the round takes six steps and yields four snapshots
      (three values and one failure), and the histories end with "Hi there",
      the error text and "OK". */
  lemma ThreeSourceScenario(query: string, prior: seq<History>, order: seq<nat>)
    requires |prior| == 3
    requires ValidOrder([Script(["Hi", "Hi there"], Exhausted), Script([], Raises), Script(["OK"], Exhausted)],
                        Zeros(3), order)
    ensures var scripts := [Script(["Hi", "Hi there"], Exhausted), Script([], Raises), Script(["OK"], Exhausted)];
            var r := Run(scripts, Start(query, prior), order);
            && |order| == 6 && |r.output| == 4
            && r.hists[0] == prior[0] + [UserTurn(query), Turn(Assistant, "Hi there")]
            && r.hists[1] == prior[1] + [UserTurn(query), Turn(Assistant, ErrorMessage)]
            && r.hists[2] == prior[2] + [UserTurn(query), Turn(Assistant, "OK")]
  {
    var scripts := [Script(["Hi", "Hi there"], Exhausted), Script([], Raises), Script(["OK"], Exhausted)];
    RoundComplete(query, prior, scripts, order);
    assert scripts[1..][1..] == [scripts[2]];
    assert Successes(scripts) == 3;
    assert Failures(scripts) == 1;
  }
}
