/** One run of the graph: every node's update is merged into the state that is passed along. */
module GraphRun {
  import opened Base
  import opened Schema
  import opened Gate
  import opened Agent

  class Graph {
    var state: AgentState

    constructor (initial: AgentState)
      ensures state == initial
    {
      state := initial;
    }

    /** Extends the evidence lists one match at a time, skipping runbooks that are evidence already. */
    method RetrieveRunbooksNode(matches: seq<RunbookMatch>, firstId: Id)
      modifies this
      ensures state == RetrieveRunbooks(old(state), matches, |matches|, firstId)
    {
      var retrieved: seq<RunbookMatch> := [];
      var runbookEvidence := state.runbooks;
      var allEvidence := state.evidence;
      for k := 0 to |matches|
        invariant state == old(state)
        invariant state.(retrieved := retrieved, runbooks := runbookEvidence, evidence := allEvidence) ==
          RetrieveRunbooks(state, matches, k, firstId)
      {
        retrieved := retrieved + [matches[k]];
        if !AlreadyStored(allEvidence, matches[k]) {
          var record := EvidenceRecord(firstId + k, Runbook, "runbooks/" + matches[k].file);
          runbookEvidence := runbookEvidence + [record];
          allEvidence := allEvidence + [record];
        }
      }
      state := state.(retrieved := retrieved, runbooks := runbookEvidence, evidence := allEvidence);
    }

    /** Marks the selected recommendation itself as needing approval, or refuses it. */
    method SafetyCheckNode()
      modifies this
      ensures state == SafetyCheck(old(state))
    {
      if state.recommendation.None? {
        state := state.(safetyPassed := false, status := GraphFailed);
        return;
      }
      var recommendation := state.recommendation.value;
      if recommendation.action !in ALLOWED_ACTIONS {
        state := state.(safetyPassed := false, status := GraphFailed, recommendation := None);
        return;
      }
      state := state.(recommendation := Some(recommendation.(requiresApproval := true)));
      state := state.(safetyPassed := true, status := GraphCompleted);
    }

    /** The compiled graph: a line of nodes with one conditional edge. */
    method Invoke(matches: seq<RunbookMatch>, firstId: Id, answer: ProviderAnswer)
      modifies this
      ensures state == RunGraph(old(state), matches, firstId, answer)
    {
      RetrieveRunbooksNode(matches, firstId);
      state := GenerateHypotheses(state, answer);
      state := ValidateGrounding(state);
      if ShouldContinue(state) {
        state := ProposeActions(state);
        SafetyCheckNode();
      }
    }
  }
}
