/** A completed campaign means that every target replied, until a report erases a reply. */
module Completion {
  import opened Domain
  import opened Settings
  import opened Tables
  import opened Protocol
  import opened Lifecycle
  import opened Runs
  import opened Faults

  /** In every state of a run that erases no reply of a completed campaign, all its targets have replied. */
  lemma CompletionMeansReplied(c: Config, w: World, steps: seq<Step>, campaign: Uuid)
    requires Initial(c, w) && Legal(c, w, steps) && Faultless(c, w, steps, Erase)
    requires campaign in Run(c, w, steps).db.campaigns && Run(c, w, steps).db.campaigns[campaign].status == Completed
    ensures AllReplied(Run(c, w, steps).db.targets, campaign)
  {
    InitiallySound(c, w, Erase);
    RunSoundExactly(c, w, steps, Erase);
  }

  /** No step of the run reports an error for a replied target of the campaign. */
  predicate SparesCampaign(c: Config, w: World, steps: seq<Step>, campaign: Uuid)
    requires Legal(c, w, steps)
    decreases |steps|
  {
    steps == [] ||
    ((forall t :: t in w.db.targets && w.db.targets[t].campaign == campaign ==> !Erases(steps[0], t)) &&
     SparesCampaign(c, Next(c, w, steps[0]), steps[1..], campaign))
  }

  /**
   The source counts the replies of a campaign and completes it in a later statement of the same
   transaction. A count that found all targets replied still holds when the campaign is completed if no
   error was reported for one of them in between.
   */
  lemma {:induction false} CountStaysTrue(c: Config, w: World, steps: seq<Step>, campaign: Uuid)
    requires Legal(c, w, steps) && WellFormed(w.db) && AllReplied(w.db.targets, campaign)
    requires SparesCampaign(c, w, steps, campaign)
    ensures AllReplied(Run(c, w, steps).db.targets, campaign)
    decreases |steps|
  {
    if steps != [] {
      StepKeepsAllReplied(c, w, steps[0], campaign);
      WellFormedKept(c, w, steps[0]);
      CountStaysTrue(c, Next(c, w, steps[0]), steps[1..], campaign);
    }
  }

  /** For one step that condition is exact. */
  lemma StepKeepsAllReplied(c: Config, w: World, s: Step, campaign: Uuid)
    requires Enabled(c, w, s) && WellFormed(w.db) && AllReplied(w.db.targets, campaign)
    ensures AllReplied(Next(c, w, s).db.targets, campaign) <==>
            forall t :: t in w.db.targets && w.db.targets[t].campaign == campaign ==> !Erases(s, t)
  {
    StepKeepsHomes(c, w, s);
    var after := Next(c, w, s).db.targets;
    forall t | t in w.db.targets && w.db.targets[t].campaign == campaign
      ensures after[t].status == Replied <==> !Erases(s, t)
    {
      RepliedKeptExactly(c, w, s, t);
    }
  }
}
