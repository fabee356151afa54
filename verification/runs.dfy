/** Runs put together and taken apart. */
module Runs {
  import opened Settings
  import opened Protocol
  import opened Frames

  lemma RunUnfolds(c: Config, w: World, steps: seq<Step>)
    requires steps != []
    ensures Legal(c, w, steps) <==> Enabled(c, w, steps[0]) && Legal(c, Next(c, w, steps[0]), steps[1..])
    ensures Legal(c, w, steps) ==> Run(c, w, steps) == Run(c, Next(c, w, steps[0]), steps[1..])
  {
  }

  lemma {:induction false} RunConcat(c: Config, w: World, first: seq<Step>, second: seq<Step>)
    requires Legal(c, w, first)
    ensures Legal(c, w, first + second) <==> Legal(c, Run(c, w, first), second)
    ensures Legal(c, w, first + second) ==> Run(c, w, first + second) == Run(c, Run(c, w, first), second)
    decreases |first|
  {
    if first == [] {
      assert first + second == second;
    } else {
      var all, rest := first + second, first[1..];
      assert all[0] == first[0] && all[1..] == rest + second;
      RunConcat(c, Next(c, w, first[0]), rest, second);
      RunUnfolds(c, w, all);
      RunUnfolds(c, w, first);
    }
  }

  /** The first part of a run is a run. */
  lemma {:induction false} RunPrefix(c: Config, w: World, first: seq<Step>, second: seq<Step>)
    requires Legal(c, w, first + second)
    ensures Legal(c, w, first)
    decreases |first|
  {
    if first != [] {
      assert (first + second)[0] == first[0] && (first + second)[1..] == first[1..] + second;
      RunPrefix(c, Next(c, w, first[0]), first[1..], second);
    }
  }

  lemma OneStep(c: Config, w: World, s: Step)
    requires Enabled(c, w, s)
    ensures Legal(c, w, [s]) && Run(c, w, [s]) == Next(c, w, s)
  {
    assert [s][1..] == [];
  }

  lemma TwoSteps(c: Config, w: World, s: Step, t: Step)
    requires Enabled(c, w, s) && Enabled(c, Next(c, w, s), t)
    ensures Legal(c, w, [s, t]) && Run(c, w, [s, t]) == Next(c, Next(c, w, s), t)
  {
    OneStep(c, Next(c, w, s), t);
    assert [s, t][1..] == [t];
  }

  lemma RunAppend(c: Config, w: World, steps: seq<Step>, s: Step)
    requires Legal(c, w, steps) && Enabled(c, Run(c, w, steps), s)
    ensures Legal(c, w, steps + [s]) && Run(c, w, steps + [s]) == Next(c, Run(c, w, steps), s)
  {
    OneStep(c, Run(c, w, steps), s);
    RunConcat(c, w, steps, [s]);
  }

  lemma StepKeepsHomes(c: Config, w: World, s: Step)
    requires Enabled(c, w, s)
    ensures SameHomes(w.db.targets, Next(c, w, s).db.targets)
  {
    match s
    case Doser(i, d) => DoserKeepsIdentity(c, w, w.dosers[i], d);
    case Elsewhere(o) => OtherFrame(c, w, o);
  }

  /** A run neither adds, drops nor re-homes a target. */
  lemma {:induction false} RunKeepsHomes(c: Config, w: World, steps: seq<Step>)
    requires Legal(c, w, steps)
    ensures SameHomes(w.db.targets, Run(c, w, steps).db.targets)
    decreases |steps|
  {
    if steps != [] {
      StepKeepsHomes(c, w, steps[0]);
      RunKeepsHomes(c, Next(c, w, steps[0]), steps[1..]);
    }
  }

  /** What is blocked stays blocked along any run. */
  lemma {:induction false} BlocksLast(c: Config, w: World, steps: seq<Step>)
    requires Legal(c, w, steps)
    ensures w.db.blocked <= Run(c, w, steps).db.blocked
    decreases |steps|
  {
    if steps != [] {
      BlockedGrows(c, w, steps[0]);
      BlocksLast(c, Next(c, w, steps[0]), steps[1..]);
    }
  }

  /** A longer trace is the shorter one's run, continued. */
  lemma TraceContinues(c: Config, start: World, before: seq<Step>, after: seq<Step>)
    requires before <= after && Legal(c, start, after)
    ensures Legal(c, start, before) && Legal(c, Run(c, start, before), after[|before|..])
    ensures Run(c, start, after) == Run(c, Run(c, start, before), after[|before|..])
  {
    var more := after[|before|..];
    assert before + more == after;
    RunPrefix(c, start, before, more);
    RunConcat(c, start, before, more);
  }

  /** What was blocked at some point of a trace is blocked at every later one. */
  lemma BlockedSince(c: Config, start: World, before: seq<Step>, after: seq<Step>)
    requires before <= after && Legal(c, start, after)
    ensures Legal(c, start, before) && Run(c, start, before).db.blocked <= Run(c, start, after).db.blocked
  {
    TraceContinues(c, start, before, after);
    BlocksLast(c, Run(c, start, before), after[|before|..]);
  }
}
