/** What a withdrawal of a KMS wallet sends, when each of its executions is one call of the KMS service. */
module KmsWithdrawals {
  import opened Domain
  import opened Pipeline
  import opened ExecutionTheorems
  import KmsNonce

  /** A request has at most three transactions accepted from the key's address, in the whole run of both systems, and more
    * than one only if its catch block has counted an attempt: an executor that throws after its broadcast counts too. */
  lemma SendsAtMostThree(acts: seq<Action>, r: ReqId, sends: seq<KmsNonce.Action>, calls: set<Pid>)
    requires |calls| <= Count(acts, r, Execution)
    ensures |KmsNonce.SentBy(KmsNonce.Run(sends).accepted, calls)| <= 3
    ensures r < |Run(Initial, acts).cells| && !Missing(Run(Initial, acts).cells[r]) ==>
              |KmsNonce.SentBy(KmsNonce.Run(sends).accepted, calls)| <= 1 + Run(Initial, acts).cells[r].row.value.request.retryCount
  {
    hide Run, Count, KmsNonce.Run;
    KmsNonce.AtMostOneEach(sends, calls);
    AtMostThreeExecutions(acts, r);
    ExecutionsCounted(acts, r);
  }

  /** Every execution but the one in progress has been counted as an attempt. */
  lemma ExecutionsCounted(acts: seq<Action>, r: ReqId)
    ensures r < |Run(Initial, acts).cells| && !Missing(Run(Initial, acts).cells[r]) ==>
              Count(acts, r, Execution) <= 1 + Run(Initial, acts).cells[r].row.value.request.retryCount
  {
    hide Run;
    CountIsTally(acts, r, Execution);
    if r < |Run(Initial, acts).cells| { CellAt(acts, r); }
  }
}
