/** One model's stream, as the round sees it: an async generator that
    produces cumulative answers and then either stops or raises. A source is
    modelled by its finite script; "pulled" counts the `__anext__` results
    the round has already consumed from it. */
module Source {
  import opened Chat

  /** How a stream finishes after its last value. */
  datatype Ending = Exhausted | Raises

  /** The cumulative values a source produces, then how it finishes. */
  datatype Script = Script(values: seq<string>, ending: Ending)

  /** One completed `__anext__` task: a value, `StopAsyncIteration`, or any
      other exception. */
  datatype Event = Yielded(text: string) | Stopped | Failed

  /** A backend call `call_x(query, context, history)` opens a stream. */
  type Backend = (string, string, History) -> Script

  /** Every source delivers its values and then one final event. */
  function EventCount(s: Script): nat
  {
    |s.values| + 1
  }

  /** The result of the source's next task once `k` events were consumed. */
  function NextEvent(s: Script, k: nat): (e: Event)
    requires k < EventCount(s)
    ensures e.Yielded? <==> k < |s.values|
    ensures e.Yielded? ==> e.text == s.values[k]
    ensures e.Failed? <==> (k == |s.values| && s.ending == Raises)
  {
    if k < |s.values| then Yielded(s.values[k])
    else match s.ending
      case Exhausted => Stopped
      case Raises => Failed
  }

  /** The content of the source's placeholder after `k` events: nothing yet,
      then the latest value, the error text after a failure, and an end of
      stream leaves what was there. */
  function Shown(s: Script, k: nat): string
    requires k <= EventCount(s)
  {
    if k == 0 then ""
    else if k <= |s.values| then s.values[k - 1]
    else if s.ending == Raises then ErrorMessage
    else Shown(s, k - 1)
  }

  /** What the placeholder holds once the source is finished. */
  function FinalText(s: Script): (r: string)
    ensures s.ending == Raises ==> r == ErrorMessage
    ensures s.ending == Exhausted && s.values == [] ==> r == ""
    ensures s.ending == Exhausted && s.values != [] ==> r == s.values[|s.values| - 1]
  {
    if s.ending == Raises then ErrorMessage else Shown(s, |s.values|)
  }

  /** A finished source shows its final text. */
  lemma FinalShown(s: Script)
    ensures Shown(s, EventCount(s)) == FinalText(s)
  {
  }

  /** Consuming the next event moves the placeholder to exactly what the
      round writes for that event. */
  lemma ShownNext(s: Script, k: nat)
    requires k < EventCount(s)
    ensures Shown(s, k + 1) == match NextEvent(s, k)
                               case Yielded(t) => t
                               case Stopped => Shown(s, k)
                               case Failed => ErrorMessage
  {
  }

  /** Snapshots the source still causes after `k` events were consumed: one
      per value left, plus one for the failure if it is still to come. */
  function OwedFrom(s: Script, k: nat): nat
  {
    (if k < |s.values| then |s.values| - k else 0)
    + (if s.ending == Raises && k <= |s.values| then 1 else 0)
  }

  /** Events the source still has to deliver after `k` were consumed. */
  function LeftFrom(s: Script, k: nat): nat
  {
    if k < EventCount(s) then EventCount(s) - k else 0
  }

  /** Consuming one event uses up one event, and one owed snapshot unless the
      event was the normal end of the stream. */
  lemma OwedNext(s: Script, k: nat)
    requires k < EventCount(s)
    ensures LeftFrom(s, k) == LeftFrom(s, k + 1) + 1
    ensures OwedFrom(s, k) == OwedFrom(s, k + 1) + (if NextEvent(s, k).Stopped? then 0 else 1)
  {
  }

  /** A sum over all sources of a per-source quantity of `(script, pulled)`. */
  function Tally(f: (Script, nat) -> nat, scripts: seq<Script>, pulled: seq<nat>): nat
    requires |pulled| == |scripts|
  {
    if scripts == [] then 0 else f(scripts[0], pulled[0]) + Tally(f, scripts[1..], pulled[1..])
  }

  /** Changing one source's count changes the sum by that source's difference. */
  lemma {:induction false} TallyUpdate(f: (Script, nat) -> nat, scripts: seq<Script>, pulled: seq<nat>, i: nat, v: nat)
    requires |pulled| == |scripts| && i < |scripts|
    ensures Tally(f, scripts, pulled[i := v]) + f(scripts[i], pulled[i])
            == Tally(f, scripts, pulled) + f(scripts[i], v)
  {
    if i > 0 {
      assert pulled[i := v][1..] == pulled[1..][i - 1 := v];
      TallyUpdate(f, scripts[1..], pulled[1..], i - 1, v);
    } else {
      assert pulled[i := v][1..] == pulled[1..];
    }
  }

  /** The sum is zero when every term is. */
  lemma {:induction false} TallyZero(f: (Script, nat) -> nat, scripts: seq<Script>, pulled: seq<nat>)
    requires |pulled| == |scripts|
    requires forall i :: 0 <= i < |scripts| ==> f(scripts[i], pulled[i]) == 0
    ensures Tally(f, scripts, pulled) == 0
  {
    if scripts != [] {
      assert f(scripts[0], pulled[0]) == 0;
      TallyZero(f, scripts[1..], pulled[1..]);
    }
  }

  function Owed(scripts: seq<Script>, pulled: seq<nat>): nat
    requires |pulled| == |scripts|
  {
    Tally(OwedFrom, scripts, pulled)
  }

  function Remaining(scripts: seq<Script>, pulled: seq<nat>): nat
    requires |pulled| == |scripts|
  {
    Tally(LeftFrom, scripts, pulled)
  }

  function Zeros(n: nat): seq<nat>
  {
    seq(n, _ => 0)
  }

  /** All values all sources produce. */
  function Successes(scripts: seq<Script>): nat
  {
    if scripts == [] then 0 else |scripts[0].values| + Successes(scripts[1..])
  }

  /** The number of sources that end by raising. */
  function Failures(scripts: seq<Script>): nat
  {
    if scripts == [] then 0
    else (if scripts[0].ending == Raises then 1 else 0) + Failures(scripts[1..])
  }

  /** Before anything is consumed, the snapshots owed are the values of all
      sources plus one per failing source. */
  lemma {:induction false} OwedAtStart(scripts: seq<Script>)
    ensures Owed(scripts, Zeros(|scripts|)) == Successes(scripts) + Failures(scripts)
  {
    if scripts != [] {
      OwedAtStart(scripts[1..]);
      assert Zeros(|scripts|)[1..] == Zeros(|scripts| - 1);
    }
  }
}
