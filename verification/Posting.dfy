/** Whatever has reached the execute stage at a replica was handed to its service. */
module Posting {
  import opened Messages
  import opened Operations
  import opened Protocol
  import opened Agreement
  import opened History
  import opened Sending

  /** Replica r hands k to its service somewhere in the run. */
  ghost predicate PostsIn(c: Config, states: seq<System>, steps: seq<Step>, r: Uuid, k: OpKey)
    requires c.HasPeers() && IsRun(c, states, steps)
  {
    exists i :: 0 <= i < |steps| && Posts(c, states, steps, i, r, k)
  }

  lemma ExecutedWasPosted(c: Config, states: seq<System>, steps: seq<Step>, j: nat, r: Uuid, k: OpKey)
    requires c.HasPeers() && IsRun(c, states, steps) && j < |states| && c.Correct(r)
    requires r in states[j].replicas && IsExecuted(states[j].replicas[r], k)
    ensures PostsIn(c, states, steps, r, k)
  {
    RunShape(c, states, steps);
    hide IsRun, BroughtBefore, Heard, Posts;
    FacetIff(c, states, steps, j, r, k, Handed);
    BroughtMore(c, states, steps, j, r, k, Handed);
    SaidIff(c, states, steps, j, r, k, Handed);
    var i: nat :| i < j && Posts(c, states, steps, i, r, k);
  }
}
