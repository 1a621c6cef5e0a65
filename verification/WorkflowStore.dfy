/** The workflow store and the objects it shares with the pipeline. Each method is the body of one
    `async with self._lock` block, which never suspends; persisting and notifying are separate steps. */
module WorkflowStores {
  import opened Handoff
  import opened Manifests

  class HandoffContract {
    const operationId: string
    const rawSql: string
    const tenantId: string
    var approvalState: ApprovalState
    var humanDecision: Option<string>
    var decisionReason: Option<string>
    var decisionTimestamp: Option<nat>
    var approverId: Option<string>
    var modificationConstraints: Option<string>
    var executionSuccess: Option<bool>

    constructor (operationId: string, rawSql: string, tenantId: string)
      ensures this.operationId == operationId && this.rawSql == rawSql && this.tenantId == tenantId
      ensures Review() == UNDECIDED && executionSuccess == None
    {
      this.operationId, this.rawSql, this.tenantId := operationId, rawSql, tenantId;
      approvalState, humanDecision, decisionReason := PENDING, None, None;
      decisionTimestamp, approverId, modificationConstraints := None, None, None;
      executionSuccess := None;
    }

    function Review(): Verdict
      reads this
    {
      Verdict(approvalState, humanDecision, decisionReason, decisionTimestamp, approverId, modificationConstraints)
    }

    /** Copies the six decision fields one by one, as HUMAN_REVIEW and update_contract do. */
    method CopyReview(from: HandoffContract)
      modifies this
      ensures Review() == old(from.Review()) && executionSuccess == old(executionSuccess)
    {
      approvalState := from.approvalState;
      humanDecision := from.humanDecision;
      decisionReason := from.decisionReason;
      decisionTimestamp := from.decisionTimestamp;
      approverId := from.approverId;
      modificationConstraints := from.modificationConstraints;
    }

    /** The timeout branch of HUMAN_REVIEW. */
    method TimeOut(at: nat)
      modifies this
      ensures Review() == Expire(old(Review()), at) && executionSuccess == old(executionSuccess)
    {
      approvalState := TIMED_OUT;
      decisionReason := Some(TIMEOUT_REASON);
      decisionTimestamp := Some(at);
    }
  }

  class WorkflowRecord {
    const operationId: string
    const manifest: Manifest
    var status: WorkflowStatus
    var contract: HandoffContract
    var executionResult: Option<bool>
    var executionCompleted: bool

    constructor (contract: HandoffContract, manifest: Manifest)
      ensures operationId == contract.operationId && this.contract == contract && this.manifest == manifest
      ensures status == RUNNING && !executionCompleted && executionResult == None
    {
      this.operationId, this.manifest, this.contract := contract.operationId, manifest, contract;
      status, executionResult, executionCompleted := RUNNING, None, false;
    }
  }

  /** An SSE subscriber's queue of status events. */
  class EventQueue {
    var items: seq<WorkflowStatus>

    constructor ()
      ensures items == []
    {
      items := [];
    }
  }

  /** A list without the first occurrence of `q`: list.remove, or the list itself when absent. */
  function Without(qs: seq<EventQueue>, q: EventQueue): (r: seq<EventQueue>)
    ensures forall x | x in r :: x in qs
    ensures forall x | x in qs && x != q :: x in r
    ensures Distinct(qs) ==> Distinct(r) && q !in r
    ensures q !in qs ==> r == qs
  {
    if qs == [] then []
    else if qs[0] == q then qs[1..]
    else
      var rest := Without(qs[1..], q);
      assert qs == [qs[0]] + qs[1..];
      assert Distinct(qs) ==> qs[0] !in qs[1..] && Distinct(qs[1..]);
      [qs[0]] + rest
  }

  /** Exactly the first occurrence is taken out, and the rest stays in its order. */
  lemma {:induction false} WithoutTheFirst(qs: seq<EventQueue>, q: EventQueue) returns (k: nat)
    requires q in qs
    ensures k < |qs| && qs[k] == q && q !in qs[..k] && Without(qs, q) == qs[..k] + qs[k + 1..]
  {
    if qs[0] == q {
      k := 0;
    } else {
      var j := WithoutTheFirst(qs[1..], q);
      k := j + 1;
      assert qs[..k] == [qs[0]] + qs[1..][..j];
    }
  }

  predicate Distinct(qs: seq<EventQueue>) {
    forall i, j | 0 <= i < j < |qs| :: qs[i] != qs[j]
  }

  class WorkflowStore {
    var records: map<string, WorkflowRecord>
    var subscribers: map<string, seq<EventQueue>>

    /** Every record is filed under its own id, and no queue is listed twice. */
    ghost predicate Valid()
      reads this, records.Values
    {
      && (forall id | id in records :: records[id].operationId == id)
      && (forall id | id in subscribers :: Distinct(subscribers[id]))
    }

    constructor ()
      ensures Valid() && records == map[] && subscribers == map[]
    {
      records, subscribers := map[], map[];
    }

    method Create(contract: HandoffContract, manifest: Manifest) returns (record: WorkflowRecord)
      requires Valid()
      modifies this`records
      ensures Valid() && fresh(record)
      ensures records == old(records)[contract.operationId := record]
      ensures record.contract == contract && record.manifest == manifest && record.operationId == contract.operationId
      ensures record.status == RUNNING && !record.executionCompleted && record.executionResult == None
    {
      record := new WorkflowRecord(contract, manifest);
      records := records[contract.operationId := record];
    }

    function Get(id: string): WorkflowRecord?
      reads this
    {
      if id in records then records[id] else null
    }

    method SetStatus(id: string, status: WorkflowStatus)
      requires Valid()
      modifies if id in records then {records[id]} else {}
      ensures Valid()
      ensures id in records ==>
        && records[id].status == status
        && records[id].contract == old(records[id].contract)
        && records[id].executionResult == old(records[id].executionResult)
        && records[id].executionCompleted == old(records[id].executionCompleted)
    {
      var record := Get(id);
      if record != null {
        record.status := status;
      }
    }

    /** update_contract: a terminal human decision that is already stored is never overwritten.
        The contract may carry another id than the record. */
    method UpdateContract(id: string, contract: HandoffContract)
      requires Valid()
      modifies if id in records then {records[id] as object, contract} else {}
      ensures Valid()
      ensures id in records ==>
        && records[id].contract == contract
        && contract.Review() == Merge(old(records[id].contract.Review()), old(contract.Review()))
        && contract.Review() == (if old(records[id].contract.approvalState) in {APPROVED, REJECTED, TIMED_OUT}
                                 then old(records[id].contract.Review()) else old(contract.Review()))
        && contract.executionSuccess == old(contract.executionSuccess)
        && records[id].status == old(records[id].status)
        && records[id].executionResult == old(records[id].executionResult)
        && records[id].executionCompleted == old(records[id].executionCompleted)
    {
      var record := Get(id);
      if record != null {
        if Preserved(record.contract.approvalState) {
          contract.CopyReview(record.contract);
        }
        record.contract := contract;
      }
    }

    method SetExecutionResult(id: string, success: bool)
      requires Valid()
      modifies if id in records then {records[id]} else {}
      ensures Valid()
      ensures id in records ==>
        && records[id].executionCompleted
        && records[id].executionResult == Some(success)
        && records[id].status == old(records[id].status)
        && records[id].contract == old(records[id].contract)
    {
      var record := Get(id);
      if record != null {
        record.executionResult := Some(success);
        record.executionCompleted := true;
      }
    }

    /** record_decision: succeeds exactly on a present, undecided record, and touches only the contract it holds. */
    method RecordDecision(id: string, p: DecisionPost) returns (ok: bool)
      requires Valid()
      modifies if id in records then {records[id].contract} else {}
      ensures Valid()
      ensures ok == (id in records && old(records[id].contract.approvalState) == PENDING)
      ensures id in records ==>
        && records[id].contract.Review() ==
             (if ok then Decide(old(records[id].contract.Review()), p) else old(records[id].contract.Review()))
        && records[id].contract.executionSuccess == old(records[id].contract.executionSuccess)
    {
      var record := Get(id);
      if record == null {
        return false;
      }
      var contract := record.contract;
      if contract.approvalState != PENDING {
        return false;
      }
      contract.approvalState := DecidedState(p.decision);
      contract.humanDecision := Some(p.decision);
      contract.decisionReason := Some(p.reason);
      contract.approverId := Some(p.approver);
      contract.decisionTimestamp := Some(p.at);
      if p.constraints.Some? && p.constraints.value != "" {
        contract.modificationConstraints := p.constraints;
      }
      return true;
    }

    /** The decision endpoint up to its call of record_decision: 400, 409 or 200. */
    method PostDecision(id: string, p: DecisionPost) returns (code: nat)
      requires Valid()
      modifies if id in records then {records[id].contract} else {}
      ensures Valid()
      ensures code == 400 <==> |p.reason| < 10 || p.decision !in {APPROVE, REJECT, MODIFY, REQUEST_PREREQUISITE}
      ensures code == 200 <==> code != 400 && id in records && old(records[id].contract.approvalState) == PENDING
      ensures code in {200, 400, 409}
      ensures id in records ==>
        records[id].contract.Review() ==
          if code == 200 then Decide(old(records[id].contract.Review()), p) else old(records[id].contract.Review())
    {
      if |p.reason| < 10 {
        return 400;
      }
      if p.decision !in {APPROVE, REJECT, MODIFY, REQUEST_PREREQUISITE} {
        return 400;
      }
      var recorded := RecordDecision(id, p);
      return if recorded then 200 else 409;
    }

    method Subscribe(id: string) returns (queue: EventQueue)
      requires Valid()
      modifies this`subscribers
      ensures Valid() && fresh(queue) && queue.items == []
      ensures subscribers == old(subscribers)[id := old(Listeners(id)) + [queue]]
    {
      queue := new EventQueue();
      var qs := if id in subscribers then subscribers[id] else [];
      subscribers := subscribers[id := qs + [queue]];
    }

    method Unsubscribe(id: string, queue: EventQueue)
      requires Valid()
      modifies this`subscribers
      ensures Valid()
      ensures subscribers ==
        if id in old(subscribers) then old(subscribers)[id := Without(old(Listeners(id)), queue)]
        else old(subscribers)
    {
      if id in subscribers {
        subscribers := subscribers[id := Without(subscribers[id], queue)];
      }
    }

    /** The queues that hear about `id`. */
    function Listeners(id: string): seq<EventQueue>
      reads this
    {
      if id in subscribers then subscribers[id] else []
    }

    /** Every subscriber's queue gets the status the record has now, exactly once. */
    method NotifySubscribers(id: string)
      requires Valid()
      modifies set q | q in Listeners(id)
      ensures Valid()
      ensures forall q | q in Listeners(id) ::
                q.items == old(q.items) + if id in records then [records[id].status] else []
    {
      var record := Get(id);
      if record == null {
        return;
      }
      var subs := Listeners(id);
      var event := record.status;
      for i := 0 to |subs|
        invariant forall k | 0 <= k < i :: subs[k].items == old(subs[k].items) + [event]
        invariant forall k | i <= k < |subs| :: subs[k].items == old(subs[k].items)
      {
        subs[i].items := subs[i].items + [event];
      }
    }
  }
}
