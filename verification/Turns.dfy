/** Runs that the outside observer does not see: submissions, collection and the worker's passes. */
module Turns {
  import opened Machine
  import opened Counting
  import opened Invariant
  import opened Frames
  import opened Runs
  import opened Refinement

  ghost predicate AllQuiet(run: seq<Label>) {
    forall i :: 0 <= i < |run| ==> Quiet(run[i])
  }

  lemma QuietConcat(a: seq<Label>, b: seq<Label>)
    requires AllQuiet(a) && AllQuiet(b)
    ensures AllQuiet(a + b)
  {
    hide Quiet;
  }

  // The observer sees the same array, writes and reads, and the mapping is the same.
  ghost predicate Unseen(s: State, s': State) {
    Readable(s) && Readable(s') && Abs(s') == Abs(s) && s'.mapping == s.mapping
  }

  lemma QuietStep(c: Config, s: State, l: Label)
    requires Inv(c, s) && Enabled(c, s, l) && Quiet(l)
    ensures Unseen(s, Apply(c, s, l))
  {
    hide Inv, Abs, Readable;
    StepRefines(c, s, l);
    QuietKeeps(c, s, l);
    hide WellFormed, Enabled, Effect;
  }

  /** A run of quiet steps changes neither the mapping nor anything an observer sees. */
  lemma {:induction false} QuietRun(c: Config, s: State, run: seq<Label>)
    requires Inv(c, s) && Run(c, s, run).Some? && AllQuiet(run)
    ensures Unseen(s, Run(c, s, run).value) && Run(c, s, run).value.mapping == s.mapping
    decreases |run|
  {
    hide Inv, Readable, Abs, WellFormed, Enabled, Apply, Quiet;
    if run == [] {
      InvReadable(c, s);
    } else {
      QuietStep(c, s, run[0]);
      StepKeepsInv(c, s, run[0]);
      QuietRun(c, Apply(c, s, run[0]), run[1..]);
    }
  }

  /** The driver's counter of writes in flight counts exactly the writes an observer waits for. */
  lemma Flights(c: Config, s: State)
    requires Inv(c, s)
    ensures s.userInflight == |Refinement.Writes(s.ios)|
  {
    assert Holds(TotalsPart, c, s);
    assert Refinement.Writes(s.ios).Keys == Holders(s.ios, LiveUser);
  }

  /** Besides the array and its reads staying as they are, what an observer sees is one more write. */
  ghost predicate OneMoreWrite(s: State, s': State, t: nat, b: nat, d: Page) {
    && Readable(s) && Readable(s') && s'.mapping == s.mapping
    && t !in Abs(s).writes && Abs(s') == Abs(s).(writes := Abs(s).writes[t := (b, d)])
    && s'.userInflight == s.userInflight + 1
  }

  /** A submission and whatever quiet steps follow it. */
  lemma SubmitRun(c: Config, s: State, t: nat, b: nat, d: Page, rest: seq<Label>, s': State)
    requires Inv(c, s) && WellFormed(c, s) && Enabled(c, s, LSubmit(t, b, d)) && AllQuiet(rest)
    requires Run(c, Apply(c, s, LSubmit(t, b, d)), rest) == Some(s')
    ensures OneMoreWrite(s, s', t, b, d) && s'.mapping == s.mapping && s'.userInflight == s.userInflight + 1
  {
    var s1 := Apply(c, s, LSubmit(t, b, d));
    assert s1.mapping == s.mapping && t !in Refinement.Writes(s.ios);
    hide Inv, WellFormed, Enabled, Apply, Abs, Readable, AllQuiet, Run;
    StepRefines(c, s, LSubmit(t, b, d));
    StepKeepsInv(c, s, LSubmit(t, b, d));
    QuietRun(c, s1, rest);
    RunKeepsInv(c, s1, rest);
    Flights(c, s);
    Flights(c, s');
    WritesOf(s);
    WritesOf(s');
  }

  lemma WritesOf(s: State)
    requires Readable(s)
    ensures Abs(s).writes == Refinement.Writes(s.ios)
  {
    hide Readable;
  }
}
