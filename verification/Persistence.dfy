/** The write-through table: upsert, reload at start-up, and what a restart preserves. */
module Persistence {
  import opened Handoff
  import opened Manifests
  import opened Protocol
  import opened ProtocolProofs

  /** A record, detached from its objects. */
  datatype Snapshot = Snapshot(
    id: string,
    status: WorkflowStatus,
    review: Verdict,
    manifest: Option<Manifest>,
    result: Option<Manifest>,
    created: nat,
    updated: nat,
    executed: bool)

  /** A row of workflow_records. */
  datatype Row = Row(
    status: WorkflowStatus,
    review: Verdict,
    manifest: Option<Manifest>,
    result: Option<Manifest>,
    created: nat,
    updated: nat,
    executed: bool)

  type Database = map<string, Row>

  /** Empty maps are falsy and are stored as NULL. */
  function NullIfEmpty(m: Option<Manifest>): Option<Manifest> {
    if m == Some(map[]) then None else m
  }

  function ToRow(s: Snapshot): Row {
    Row(s.status, s.review, NullIfEmpty(s.manifest), NullIfEmpty(s.result), s.created, s.updated, s.executed)
  }

  /** ON CONFLICT keeps the first creation time and replaces everything else. */
  function Upsert(db: Database, s: Snapshot): Database {
    var row := ToRow(s);
    db[s.id := if s.id in db then row.(created := db[s.id].created) else row]
  }

  function UpsertAll(db: Database, ss: seq<Snapshot>): Database {
    if ss == [] then db else Upsert(UpsertAll(db, ss[..|ss| - 1]), ss[|ss| - 1])
  }

  /** The schema validator run on every load: APPROVE and REJECT need a reason of ten characters, or none. */
  predicate Loadable(v: Verdict) {
    (v.humanDecision == Some(APPROVE) || v.humanDecision == Some(REJECT)) && v.reason.Some? && v.reason.value != ""
    ==> |v.reason.value| >= 10
  }

  function FromRow(id: string, r: Row): Snapshot {
    Snapshot(id, r.status, r.review, r.manifest, r.result, r.created, r.updated, r.executed)
  }

  /** A row that does not validate is skipped. */
  function Reload(db: Database): map<string, Snapshot> {
    map id | id in db && Loadable(db[id].review) :: FromRow(id, db[id])
  }

  /** The write at `k` is the last one for its id. */
  predicate LastWrite(ss: seq<Snapshot>, k: nat) {
    k < |ss| && forall j | k < j < |ss| :: ss[j].id != ss[k].id
  }

  /** All snapshots of an id carry the creation time of its record. */
  predicate CreationFixed(ss: seq<Snapshot>) {
    forall i, j | 0 <= i < j < |ss| :: ss[i].id == ss[j].id ==> ss[i].created == ss[j].created
  }

  lemma {:induction false} RowKeepsCreation(ss: seq<Snapshot>, i: nat)
    requires CreationFixed(ss) && i < |ss|
    ensures ss[i].id in UpsertAll(map[], ss) && UpsertAll(map[], ss)[ss[i].id].created == ss[i].created
  {
    var n := |ss| - 1;
    if i < n {
      RowKeepsCreation(ss[..n], i);
    } else if ss[n].id in UpsertAll(map[], ss[..n]) {
      var j := RowHasWriter(ss[..n], ss[n].id);
      RowKeepsCreation(ss[..n], j);
    }
  }

  /** Whatever later snapshots carry, the row keeps the creation time that was written first. */
  lemma {:induction false} FirstWriteFixesCreation(ss: seq<Snapshot>, k: nat)
    requires k < |ss| && forall j | 0 <= j < k :: ss[j].id != ss[k].id
    ensures ss[k].id in UpsertAll(map[], ss) && UpsertAll(map[], ss)[ss[k].id].created == ss[k].created
  {
    var n := |ss| - 1;
    if k < n {
      FirstWriteFixesCreation(ss[..n], k);
    } else if ss[n].id in UpsertAll(map[], ss[..n]) {
      var j := RowHasWriter(ss[..n], ss[n].id);
      assert false;
    }
  }

  lemma {:induction false} RowHasWriter(ss: seq<Snapshot>, id: string) returns (j: nat)
    requires id in UpsertAll(map[], ss)
    ensures j < |ss| && ss[j].id == id
  {
    var n := |ss| - 1;
    if ss[n].id == id {
      j := n;
    } else {
      j := RowHasWriter(ss[..n], id);
    }
  }

  lemma {:induction false} RowIsLastWrite(ss: seq<Snapshot>, k: nat)
    requires LastWrite(ss, k) && CreationFixed(ss)
    ensures ss[k].id in UpsertAll(map[], ss) && UpsertAll(map[], ss)[ss[k].id] == ToRow(ss[k])
    ensures var row, s := UpsertAll(map[], ss)[ss[k].id], ss[k];
      && row.status == s.status && row.review == s.review && row.executed == s.executed
      && row.created == s.created && row.updated == s.updated
      && (s.manifest != Some(map[]) ==> row.manifest == s.manifest)
      && (s.result != Some(map[]) ==> row.result == s.result)
  {
    var n := |ss| - 1;
    if k < n {
      RowIsLastWrite(ss[..n], k);
    } else {
      RowKeepsCreation(ss, n);
    }
  }

  /** Persist then reload restores the last snapshot written for an id if and only if its decision fields validate. It
      comes back as it was in all eight fields, except that an empty map has become None. */
  lemma RestartRestoresTheLastWrite(ss: seq<Snapshot>, k: nat)
    requires LastWrite(ss, k) && CreationFixed(ss)
    ensures var after := Reload(UpsertAll(map[], ss));
      && (ss[k].id in after <==> Loadable(ss[k].review))
      && (Loadable(ss[k].review) ==>
            var s, t := ss[k], after[ss[k].id];
            && t.manifest == (if s.manifest == Some(map[]) then None else s.manifest)
            && t.result == (if s.result == Some(map[]) then None else s.result)
            && t == s.(manifest := t.manifest, result := t.result)
            && (s.manifest != Some(map[]) && s.result != Some(map[]) ==> t == s))
  {
    RowIsLastWrite(ss, k);
  }

  /** The manifest as EXECUTION reads it from a record. */
  function ManifestOrEmpty(m: Option<Manifest>): Manifest {
    if m.Some? then m.value else map[]
  }

  /** EXECUTION cannot tell a reloaded record from the one that was persisted: its hash guard decides the same and it
      would send the same request. */
  lemma RestartKeepsExecution(
    ss: seq<Snapshot>, k: nat, hash: Hash, rawSql: string, tenant: string, defaultUrl: string)
    requires LastWrite(ss, k) && CreationFixed(ss) && Loadable(ss[k].review)
    ensures var after := Reload(UpsertAll(map[], ss));
      && ss[k].id in after
      && var before, m := ManifestOrEmpty(ss[k].manifest), ManifestOrEmpty(after[ss[k].id].manifest);
      && m == before
      && (GuardPasses(m, hash) <==> GuardPasses(before, hash))
      && TargetRequest(m, rawSql, tenant, defaultUrl) == TargetRequest(before, rawSql, tenant, defaultUrl)
      && after[ss[k].id].executed == ss[k].executed
  {
    RestartRestoresTheLastWrite(ss, k);
  }

  /** So an id decided or executed before a restart still refuses decisions and execution after it; one whose
      row does not validate has no record, and is refused for that reason. */
  lemma RestartStillRefuses(ss: seq<Snapshot>, k: nat)
    requires LastWrite(ss, k) && CreationFixed(ss)
    ensures var after := Reload(UpsertAll(map[], ss));
      && (ss[k].review.state != PENDING ==> !(ss[k].id in after && after[ss[k].id].review.state == PENDING))
      && (ss[k].executed ==> !(ss[k].id in after && !after[ss[k].id].executed))
  {
    RestartRestoresTheLastWrite(ss, k);
  }

  /** record_decision itself takes any reason: an approval with a short one is persisted and lost on reload. */
  lemma ShortReasonIsLost(s: Snapshot, p: DecisionPost)
    requires p.decision == APPROVE && 0 < |p.reason| < 10
    ensures s.id in UpsertAll(map[], [s.(review := Decide(s.review, p))])
    ensures s.id !in Reload(UpsertAll(map[], [s.(review := Decide(s.review, p))]))
  {
    RestartRestoresTheLastWrite([s.(review := Decide(s.review, p))], 0);
    RowIsLastWrite([s.(review := Decide(s.review, p))], 0);
  }

  // ----- which verdicts a run stores -----

  /** record_decision takes this post, and the validator will not take back what it wrote. */
  predicate TooShort(p: DecisionPost) {
    (p.decision == APPROVE || p.decision == REJECT) && 0 < |p.reason| < 10
  }

  /** Only a decision in force can be unloadable: MODIFY, the timeout and the gate leave valid fields behind. */
  predicate OnlyDecidedUnloadable(v: Verdict) {
    !Loadable(v) ==> v.state == APPROVED || v.state == REJECTED
  }

  predicate Sound(s: Sys) {
    OnlyDecidedUnloadable(s.proxy) && OnlyDecidedUnloadable(s.pipe)
  }

  lemma StepKeepsSound(cfg: Config, s: Sys, e: Event)
    requires Inv(s) && Sound(s) && Enabled(s, e)
    ensures Sound(Next(cfg, s, e))
  {
    assert |TIMEOUT_REASON| >= 10;
  }

  lemma {:induction false} RunKeepsSound(cfg: Config, ss: seq<Sys>, es: seq<Event>, i: nat)
    requires IsRun(cfg, ss, es) && i < |ss|
    ensures Sound(ss[i])
  {
    hide Next, Enabled, Sound, Inv;
    if i == 0 {
      InitIsSound(ss[0]);
    } else {
      RunKeepsSound(cfg, ss, es, i - 1);
      RunKeepsInv(cfg, ss, es, i - 1);
      StepKeepsSound(cfg, ss[i - 1], es[i - 1]);
    }
  }

  lemma InitIsSound(s: Sys)
    requires Init(s)
    ensures Sound(s)
  {
  }

  /** In every state of every run, what the record holds validates on reload if and only if it is not an approval or
      rejection in force whose accepted post had a reason of one to nine characters. */
  lemma StoredVerdictLoadsExactly(cfg: Config, ss: seq<Sys>, es: seq<Event>, i: nat)
    requires IsRun(cfg, ss, es) && i < |ss|
    ensures var s := ss[i];
      Loadable(Stored(s)) <==>
        !(&& (Stored(s).state == APPROVED || Stored(s).state == REJECTED)
          && s.decisions != [] && TooShort(s.decisions[|s.decisions| - 1]))
  {
    RunKeepsSound(cfg, ss, es, i);
    RunKeepsInv(cfg, ss, es, i);
  }

  /** Every accepted decision was posted. */
  lemma {:induction false} DecisionsWerePosted(cfg: Config, ss: seq<Sys>, es: seq<Event>, i: nat, d: nat)
    requires IsRun(cfg, ss, es) && i < |ss| && d < |ss[i].decisions|
    ensures exists k | 0 <= k < i :: es[k] == Post(ss[i].decisions[d])
  {
    hide Next, Enabled;
    assert i > 0;
    StepAddsPost(cfg, ss[i - 1], es[i - 1]);
    if d < |ss[i - 1].decisions| {
      DecisionsWerePosted(cfg, ss, es, i - 1, d);
    }
  }

  lemma StepAddsPost(cfg: Config, s: Sys, e: Event)
    requires Enabled(s, e)
    ensures Next(cfg, s, e).decisions == s.decisions
            || (e.Post? && Next(cfg, s, e).decisions == s.decisions + [e.post])
  {
  }

  /** When every post comes through a caller that demands ten characters, as the decision endpoint and the Slack
      modal do, a restart after any prefix of a run finds the record again, with the verdict it had. */
  lemma RestartKeepsTheRecord(
    cfg: Config, ss: seq<Sys>, es: seq<Event>, i: nat, writes: seq<Snapshot>, k: nat)
    requires IsRun(cfg, ss, es) && i < |ss|
    requires forall j | 0 <= j < i :: es[j].Post? ==> |es[j].post.reason| >= 10
    requires LastWrite(writes, k) && CreationFixed(writes) && writes[k].review == Stored(ss[i])
    ensures var after := Reload(UpsertAll(map[], writes));
      writes[k].id in after && after[writes[k].id].review == Stored(ss[i])
  {
    hide IsRun, Stored, Reload, UpsertAll, LastWrite, CreationFixed;
    StoredVerdictLoadsExactly(cfg, ss, es, i);
    RestartRestoresTheLastWrite(writes, k);
    var n := |ss[i].decisions|;
    if n > 0 {
      DecisionsWerePosted(cfg, ss, es, i, n - 1);
    }
  }
}
