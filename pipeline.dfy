/** `rag_stream` as the program runs it: the caller's histories are edited
    in place, a set of pending sources is popped and refilled inside a loop,
    and every `yield` is recorded in `output`. Each step is proved to do what
    the value-level round of module Round does. */
module Pipeline {
  import opened Chat
  import opened Source
  import opened Context
  import Round

  class Aggregator {
    const query: string
    const scripts: seq<Script>
    ghost const prior: seq<History>
    /** The caller's histories, one per source. */
    const hists: array<History>
    var pulled: seq<nat>
    var pending: set<nat>
    var output: seq<seq<History>>

    ghost function State(): Round.State
      reads this, hists
    {
      Round.State(hists[..], pulled, pending, output)
    }

    ghost predicate Valid()
      reads this, hists
    {
      hists.Length == |scripts| && Round.Inv(query, prior, scripts, State())
    }

    /** Opens the round over histories that already carry the user's turn and
      the placeholder: every source pending, nothing consumed or yielded. */
    constructor Open(query: string, scripts: seq<Script>, hists: array<History>, ghost prior: seq<History>)
      requires hists.Length == |scripts| == |prior|
      requires forall i :: 0 <= i < |prior| ==> hists[i] == prior[i] + [UserTurn(query), Placeholder]
      ensures Valid()
      ensures this.query == query && this.scripts == scripts && this.hists == hists && this.prior == prior
      ensures State() == Round.Start(query, prior)
    {
      this.query := query;
      this.scripts := scripts;
      this.hists := hists;
      this.prior := prior;
      pulled := Zeros(|scripts|);
      pending := Round.Indices(|scripts|);
      output := [];
      new;
      assert hists[..] == Round.Prepared(query, prior);
      Round.StartInv(query, prior, scripts);
    }

    /** One task of source `i` completes and is handled: the body of the
      `for task in done` loop. */
    method Arrive(i: nat)
      requires Valid() && i in pending
      modifies this, hists
      ensures Valid()
      ensures State() == Round.Arrive(scripts, old(State()), i)
    {
      ghost var before := State();
      Round.InvWellFormed(query, prior, scripts, before);
      var event := NextEvent(scripts[i], pulled[i]);
      pending := pending - {i};
      pulled := pulled[i := pulled[i] + 1];
      match event {
        case Yielded(t) =>
          hists[i] := SetContent(hists[i], t);
          pending := pending + {i};
          output := output + [hists[..]];
        case Stopped =>
        case Failed =>
          hists[i] := SetContent(hists[i], ErrorMessage);
          output := output + [hists[..]];
      }
      assert State() == Round.Arrive(scripts, before, i);
      Round.ArriveInv(query, prior, scripts, before, i);
    }

    /** The `while tasks:` loop: whichever pending source completes next is
      handled, until none is pending. Returns the arrival order it saw, which
      is a possible one, and ends having yielded every snapshot that was
      still owed. */
    method Drain() returns (order: seq<nat>)
      requires Valid()
      modifies this, hists
      ensures Valid() && pending == {}
      ensures State() == Round.Run(scripts, old(State()), order)
      ensures Round.ValidOrder(scripts, old(pulled), order)
      ensures |output| == |old(output)| + Owed(scripts, old(pulled))
    {
      ghost var start := State();
      order := [];
      Round.InvWellFormed(query, prior, scripts, start);
      Round.RunConserves(scripts, start, order);
      while pending != {}
        invariant Valid()
        invariant Round.WellFormed(scripts, start)
        invariant State() == Round.Run(scripts, start, order)
        invariant Round.Tracks(scripts, start.pulled, pulled, order)
        invariant |output| + Owed(scripts, pulled) == |start.output| + Owed(scripts, start.pulled)
        decreases Remaining(scripts, pulled)
      {
        var i :| i in pending;
        ghost var st := State();
        Round.InvWellFormed(query, prior, scripts, st);
        Round.DrainStep(scripts, start, order, st, i);
        Round.RunSnoc(scripts, start, order, i);
        Arrive(i);
        order := order + [i];
      }
      forall j: nat | j < |scripts|
        ensures OwedFrom(scripts[j], pulled[j]) == 0
        ensures multiset(order)[j] == LeftFrom(scripts[j], start.pulled[j])
      {
        assert j !in pending;
      }
      TallyZero(OwedFrom, scripts, pulled);
    }
  }

  /** Step 2 of a round: the user's turn goes onto every history, then an
      empty assistant placeholder goes onto every history. */
  method Prepare(query: string, hists: array<History>)
    modifies hists
    ensures forall i :: 0 <= i < hists.Length ==> hists[i] == old(hists[i]) + [UserTurn(query), Placeholder]
  {
    for k := 0 to hists.Length
      invariant forall j :: 0 <= j < k ==> hists[j] == old(hists[j]) + [UserTurn(query)]
      invariant forall j :: k <= j < hists.Length ==> hists[j] == old(hists[j])
    {
      hists[k] := hists[k] + [UserTurn(query)];
    }
    for k := 0 to hists.Length
      invariant forall j :: 0 <= j < k ==> hists[j] == old(hists[j]) + [UserTurn(query), Placeholder]
      invariant forall j :: k <= j < hists.Length ==> hists[j] == old(hists[j]) + [UserTurn(query)]
    {
      hists[k] := hists[k] + [Placeholder];
    }
  }

  /** Step 3 of a round: one stream per history, each opened with the query,
      the shared context and the history without its last two turns. */
  method OpenSources(query: string, ctx: string, hists: seq<History>, backends: seq<Backend>)
    returns (scripts: seq<Script>)
    requires |backends| == |hists|
    requires forall i :: 0 <= i < |hists| ==> |hists[i]| >= 2
    ensures |scripts| == |hists|
    ensures forall i :: 0 <= i < |hists| ==> scripts[i] == backends[i](query, ctx, PriorOf(hists[i]))
  {
    scripts := [];
    for k := 0 to |hists|
      invariant |scripts| == k
      invariant forall j :: 0 <= j < k ==> scripts[j] == backends[j](query, ctx, PriorOf(hists[j]))
    {
      var h := hists[k];
      scripts := scripts + [backends[k](query, ctx, h[..|h| - 2])];
    }
  }

  /** `rag_stream`: fetch the shared context once, prepare every history,
      open every source on its pre-round history, and drain the events in
      the arrival order the sources produce. The snapshots yielded and the
      histories left behind are those of the value-level round for that
      order; there are as many snapshots as values plus failures; and each
      history ends with the query and its source's final answer. */
  method RagStream(query: string, hists: array<History>, backends: seq<Backend>, embed: Embedder, search: Searcher)
    returns (snapshots: seq<seq<History>>, order: seq<nat>)
    requires |backends| == hists.Length
    modifies hists
    ensures var ctx := GetContext(query, embed, search);
            var scripts := Round.Opened(query, ctx, old(hists[..]), backends);
            && Round.ValidOrder(scripts, Zeros(hists.Length), order)
            && snapshots == Round.RoundOf(query, ctx, old(hists[..]), backends, order).output
            && hists[..] == Round.RoundOf(query, ctx, old(hists[..]), backends, order).hists
            && |snapshots| == Successes(scripts) + Failures(scripts)
            && forall i :: 0 <= i < hists.Length ==>
                 hists[i] == old(hists[i]) + [UserTurn(query), Turn(Assistant, FinalText(scripts[i]))]
  {
    var ctx := GetContext(query, embed, search);
    ghost var prior := hists[..];
    Prepare(query, hists);
    forall i | 0 <= i < hists.Length ensures PriorOf(hists[i]) == prior[i] {
      PriorOfPrepared(prior[i], query);
    }
    var scripts := OpenSources(query, ctx, hists[..], backends);
    assert scripts == Round.Opened(query, ctx, prior, backends);
    var agg := new Aggregator.Open(query, scripts, hists, prior);
    order := agg.Drain();
    snapshots := agg.output;
    Round.RoundComplete(query, prior, scripts, order);
  }
}
