/** The SSE status stream. Any number of tasks write the record's status and notify later; any number of
    streams subscribe, greet with the current status, and then relay what their queue receives. */
module StatusStreams {
  import opened Handoff

  predicate Terminal(s: WorkflowStatus) {
    s in {STATUS_APPROVED, STATUS_REJECTED, STATUS_AUTO_REJECTED, AUTO_EXECUTED, COMPLETED, FAILED, STATUS_TIMED_OUT}
  }

  /** A stream waits for more exactly while the workflow runs or waits for a human. */
  lemma OnlyTwoStatusesGoOn(s: WorkflowStatus)
    ensures !Terminal(s) <==> s == RUNNING || s == PENDING_HUMAN_APPROVAL
  {
  }

  /** Where the generator is suspended. */
  datatype Stage =
    | Greeting                          // at the first yield
    | Listening                         // awaiting the queue
    | Relaying(event: WorkflowStatus)   // at a later yield
    | Closed                            // returned, and unsubscribed
    | Dropped                           // the client went away, and unsubscribed

  datatype Stream = Stream(stage: Stage, queue: seq<WorkflowStatus>, emitted: seq<WorkflowStatus>)

  predicate Open(s: Stream) {
    s.stage != Closed && s.stage != Dropped
  }

  /** Subscribe, read the record, yield it: one step. */
  function Greet(status: WorkflowStatus): Stream {
    Stream(Greeting, [], [status])
  }

  /** The generator runs to its next suspension. `live` is the record's status now: the test after
      the first yield reads the record again, every later test reads the event. */
  function Resume(s: Stream, live: WorkflowStatus): Stream {
    match s.stage
    case Greeting => s.(stage := if Terminal(live) then Closed else Listening)
    case Listening =>
      if s.queue == [] then s
      else Stream(Relaying(s.queue[0]), s.queue[1..], s.emitted + [s.queue[0]])
    case Relaying(event) => s.(stage := if Terminal(event) then Closed else Listening)
    case Closed => s
    case Dropped => s
  }

  /** put(event) on the queue of a stream that is still subscribed. */
  function Enqueue(s: Stream, event: WorkflowStatus): Stream {
    if Open(s) then s.(queue := s.queue + [event]) else s
  }

  // ----- the system -----

  /** `announced` lists every status ever notified; `since` says, per stream, how many came before it. */
  datatype Hub = Hub(
    status: WorkflowStatus,
    pending: nat,
    streams: seq<Stream>,
    announced: seq<WorkflowStatus>,
    since: seq<nat>)

  datatype Event =
    | SetStatus(status: WorkflowStatus)   // update_status: written, notify to follow
    | Touch                               // record_decision, set_execution_result: notify to follow
    | Notify
    | Subscribe
    | Step(i: nat)
    | Disconnect(i: nat)

  predicate Enabled(h: Hub, e: Event) {
    match e
    case Notify => h.pending > 0
    case Step(i) => i < |h.streams|
    case Disconnect(i) => i < |h.streams| && Open(h.streams[i])
    case _ => true
  }

  function Next(h: Hub, e: Event): Hub
    requires Enabled(h, e)
  {
    match e
    case SetStatus(s) => h.(status := s, pending := h.pending + 1)
    case Touch => h.(pending := h.pending + 1)
    case Notify =>
      h.(pending := h.pending - 1,
         announced := h.announced + [h.status],
         streams := seq(|h.streams|, i requires 0 <= i < |h.streams| => Enqueue(h.streams[i], h.status)))
    case Subscribe => h.(streams := h.streams + [Greet(h.status)], since := h.since + [|h.announced|])
    case Step(i) => h.(streams := h.streams[i := Resume(h.streams[i], h.status)])
    case Disconnect(i) => h.(streams := h.streams[i := h.streams[i].(stage := Dropped)])
  }

  ghost predicate IsRun(hs: seq<Hub>, es: seq<Event>) {
    && |hs| == |es| + 1
    && hs[0].pending == 0 && hs[0].streams == [] && hs[0].announced == [] && hs[0].since == []
    && forall i | 0 <= i < |es| :: Enabled(hs[i], es[i]) && hs[i + 1] == Next(hs[i], es[i])
  }

  // ----- what every stream keeps -----

  /** The newest status a stream has emitted or has in its queue. */
  function Newest(s: Stream): WorkflowStatus
    requires s.emitted != []
  {
    if s.queue != [] then s.queue[|s.queue| - 1] else s.emitted[|s.emitted| - 1]
  }

  /** A stream relays the announcements since it subscribed: all of them, once, in order, and then stops. */
  predicate Relays(s: Stream, heard: seq<WorkflowStatus>) {
    && s.emitted != []
    && (if Open(s) then s.emitted[1..] + s.queue == heard else s.emitted[1..] <= heard)
    && (s.stage == Greeting ==> |s.emitted| == 1)
    && (s.stage.Relaying? ==> |s.emitted| > 1 && s.emitted[|s.emitted| - 1] == s.stage.event)
    && (forall k | 0 < k < |s.emitted| - 1 :: !Terminal(s.emitted[k]))
    && (s.stage == Listening && |s.emitted| > 1 ==> !Terminal(s.emitted[|s.emitted| - 1]))
    && (s.stage == Closed && |s.emitted| > 1 ==> Terminal(s.emitted[|s.emitted| - 1]))
  }

  /** Nothing it should know is lost: it is up to date, or a notify is on its way. */
  predicate Current(s: Stream, status: WorkflowStatus, pending: nat)
    requires s.emitted != []
  {
    && (Open(s) && pending == 0 ==> Newest(s) == status)
    && (s.stage == Listening && pending == 0 && s.queue == [] ==> !Terminal(s.emitted[|s.emitted| - 1]))
  }

  predicate Fits(h: Hub) {
    && |h.since| == |h.streams|
    && (forall i | 0 <= i < |h.streams| ::
          && h.since[i] <= |h.announced|
          && Relays(h.streams[i], h.announced[h.since[i]..])
          && Current(h.streams[i], h.status, h.pending))
  }

  lemma ResumeKeeps(s: Stream, status: WorkflowStatus, pending: nat, heard: seq<WorkflowStatus>)
    requires Relays(s, heard) && Current(s, status, pending)
    ensures Relays(Resume(s, status), heard) && Current(Resume(s, status), status, pending)
  {
    var t := Resume(s, status);
    if s.stage == Listening && s.queue != [] {
      assert t.emitted[1..] + t.queue == s.emitted[1..] + s.queue;
    }
  }

  lemma EnqueueKeeps(s: Stream, status: WorkflowStatus, pending: nat, heard: seq<WorkflowStatus>)
    requires Relays(s, heard)
    ensures Relays(Enqueue(s, status), heard + [status]) && Current(Enqueue(s, status), status, pending)
  {
    if Open(s) {
      assert s.emitted[1..] + (s.queue + [status]) == (s.emitted[1..] + s.queue) + [status];
    }
  }

  lemma NotifyKeepsFits(h: Hub)
    requires Fits(h) && h.pending > 0
    ensures Fits(Next(h, Notify))
  {
    var t := Next(h, Notify);
    forall i | 0 <= i < |t.streams|
      ensures t.since[i] <= |t.announced|
      ensures Relays(t.streams[i], t.announced[t.since[i]..]) && Current(t.streams[i], t.status, t.pending)
    {
      assert t.announced[t.since[i]..] == h.announced[h.since[i]..] + [h.status];
      EnqueueKeeps(h.streams[i], h.status, t.pending, h.announced[h.since[i]..]);
    }
  }

  lemma StepKeepsFits(h: Hub, e: Event)
    requires Fits(h) && Enabled(h, e)
    ensures Fits(Next(h, e))
  {
    match e
    case Notify => NotifyKeepsFits(h);
    case Subscribe => assert h.announced[|h.announced|..] == [];
    case Step(i) => ResumeKeeps(h.streams[i], h.status, h.pending, h.announced[h.since[i]..]);
    case _ =>
  }

  lemma {:induction false} RunKeepsFits(hs: seq<Hub>, es: seq<Event>, n: nat)
    requires IsRun(hs, es) && n < |hs|
    ensures Fits(hs[n])
  {
    if n > 0 {
      RunKeepsFits(hs, es, n - 1);
      StepKeepsFits(hs[n - 1], es[n - 1]);
    }
  }

  /** No lost wakeup: in every interleaving, with no notify on its way, every open stream has emitted or
      queued the record's current status; and what it emitted and queued is exactly what was announced. */
  lemma NoLostWakeup(hs: seq<Hub>, es: seq<Event>, n: nat, i: nat)
    requires IsRun(hs, es) && n < |hs| && i < |hs[n].streams| && Open(hs[n].streams[i])
    ensures var h, s := hs[n], hs[n].streams[i];
      && s.emitted != []
      && (h.pending == 0 ==> Newest(s) == h.status)
      && i < |h.since| && h.since[i] <= |h.announced|
      && s.emitted[1..] + s.queue == h.announced[h.since[i]..]
  {
    RunKeepsFits(hs, es, n);
  }

  // ----- delivery -----

  /** The position of the first terminal status, or the length when there is none. */
  function FirstTerminal(q: seq<WorkflowStatus>): (k: nat)
    ensures k <= |q|
    ensures k < |q| ==> Terminal(q[k])
    ensures forall j | 0 <= j < k :: !Terminal(q[j])
  {
    if q == [] || Terminal(q[0]) then 0 else 1 + FirstTerminal(q[1..])
  }

  /** More events behind a terminal one do not move it. */
  lemma FirstTerminalStays(q: seq<WorkflowStatus>, more: seq<WorkflowStatus>)
    requires q <= more && FirstTerminal(q) < |q|
    ensures FirstTerminal(more) == FirstTerminal(q)
  {
    var k := FirstTerminal(q);
    assert more[k] == q[k] && forall j | 0 <= j < k :: more[j] == q[j];
  }

  /** A terminal status waits in the queue, or is just being relayed. */
  predicate Due(s: Stream) {
    Open(s) && (FirstTerminal(s.queue) < |s.queue| || (s.stage.Relaying? && Terminal(s.stage.event)))
  }

  /** How many steps of its own a due stream has before it closes: two for each event up to the terminal one. */
  function StepsLeft(s: Stream): nat {
    if s.stage.Relaying? && Terminal(s.stage.event) then 1
    else 2 * (FirstTerminal(s.queue) + 1) + if s.stage == Listening then 0 else 1
  }

  /** How often stream `i` is scheduled from event `n` up to event `m`. */
  function StepsOf(es: seq<Event>, i: nat, n: nat, m: nat): nat
    requires n <= m <= |es|
  {
    if n == m then 0 else StepsOf(es, i, n, m - 1) + if es[m - 1] == Step(i) then 1 else 0
  }

  predicate NeverDisconnects(es: seq<Event>, i: nat, n: nat, m: nat)
    requires n <= m <= |es|
  {
    forall k | n <= k < m :: es[k] != Disconnect(i)
  }

  lemma ResumeWhenDue(s: Stream, live: WorkflowStatus)
    requires Due(s)
    ensures var t := Resume(s, live); t.stage == Closed || (Due(t) && StepsLeft(t) + 1 == StepsLeft(s))
  {
  }

  lemma EnqueueWhenDue(s: Stream, event: WorkflowStatus)
    requires Due(s)
    ensures var t := Enqueue(s, event); Due(t) && StepsLeft(t) == StepsLeft(s)
  {
    if FirstTerminal(s.queue) < |s.queue| {
      FirstTerminalStays(s.queue, s.queue + [event]);
    }
  }

  /** One event of the system, seen from a due stream: only its own steps bring it nearer to its end. */
  lemma StepWhenDue(h: Hub, e: Event, i: nat)
    requires Enabled(h, e) && e != Disconnect(i) && i < |h.streams| && Due(h.streams[i])
    ensures i < |Next(h, e).streams|
    ensures var t := Next(h, e).streams[i];
      || t.stage == Closed
      || (Due(t) && StepsLeft(t) + (if e == Step(i) then 1 else 0) == StepsLeft(h.streams[i]))
  {
    match e
    case Notify => EnqueueWhenDue(h.streams[i], h.status);
    case Step(_) => ResumeWhenDue(h.streams[i], h.status);
    case _ =>
  }

  lemma StepWhenClosed(h: Hub, e: Event, i: nat)
    requires Enabled(h, e) && i < |h.streams| && h.streams[i].stage == Closed
    ensures i < |Next(h, e).streams| && Next(h, e).streams[i] == h.streams[i]
  {
  }

  /** Whatever notifies, status writes and other streams do in between, a due stream that gets its steps closes. */
  lemma {:induction false} DueStreamCloses(hs: seq<Hub>, es: seq<Event>, n: nat, m: nat, i: nat)
    requires IsRun(hs, es) && n <= m < |hs| && i < |hs[n].streams|
    requires Due(hs[n].streams[i]) && NeverDisconnects(es, i, n, m)
    ensures i < |hs[m].streams|
    ensures var t := hs[m].streams[i];
      t.stage == Closed || (Due(t) && StepsLeft(t) + StepsOf(es, i, n, m) == StepsLeft(hs[n].streams[i]))
    ensures StepsOf(es, i, n, m) >= StepsLeft(hs[n].streams[i]) ==> hs[m].streams[i].stage == Closed
    decreases m
  {
    hide Next, Enabled, Due, StepsLeft;
    if n < m {
      DueStreamCloses(hs, es, n, m - 1, i);
      if hs[m - 1].streams[i].stage == Closed {
        StepWhenClosed(hs[m - 1], es[m - 1], i);
      } else {
        StepWhenDue(hs[m - 1], es[m - 1], i);
      }
    }
    DueNeedsSteps(hs[m].streams[i]);
  }

  lemma DueNeedsSteps(s: Stream)
    ensures StepsLeft(s) > 0
  {
  }

  // ----- what a closed stream has emitted -----

  /** Everything announced since stream `i` subscribed. */
  function Heard(h: Hub, i: nat): seq<WorkflowStatus>
    requires i < |h.since| && h.since[i] <= |h.announced|
  {
    h.announced[h.since[i]..]
  }

  lemma {:induction false} HeardGrows(hs: seq<Hub>, es: seq<Event>, n: nat, m: nat, i: nat)
    requires IsRun(hs, es) && n <= m < |hs| && i < |hs[n].since| && hs[n].since[i] <= |hs[n].announced|
    ensures i < |hs[m].since| && hs[m].since[i] <= |hs[m].announced|
    ensures Heard(hs[n], i) <= Heard(hs[m], i)
    decreases m
  {
    if n < m {
      HeardGrows(hs, es, n, m - 1, i);
      StepGrowsHeard(hs[m - 1], es[m - 1], i);
    }
  }

  lemma StepGrowsHeard(h: Hub, e: Event, i: nat)
    requires Enabled(h, e) && i < |h.since| && h.since[i] <= |h.announced|
    ensures i < |Next(h, e).since| && h.since[i] == Next(h, e).since[i] <= |Next(h, e).announced|
    ensures Heard(h, i) <= Heard(Next(h, e), i)
  {
  }

  /** Past its greeting, a closed stream has emitted the announcements since it subscribed up to and including the
      first terminal one, and nothing else. */
  lemma ClosedEmitsUpToFirstTerminal(hs: seq<Hub>, es: seq<Event>, m: nat, i: nat)
    requires IsRun(hs, es) && m < |hs| && i < |hs[m].streams|
    requires hs[m].streams[i].stage == Closed && |hs[m].streams[i].emitted| > 1
    ensures i < |hs[m].since| && hs[m].since[i] <= |hs[m].announced|
    ensures var heard, k := Heard(hs[m], i), FirstTerminal(Heard(hs[m], i));
      k < |heard| && hs[m].streams[i].emitted[1..] == heard[..k + 1]
  {
    RunKeepsFits(hs, es, m);
    ClosedPrefix(hs[m].streams[i], Heard(hs[m], i));
  }

  lemma ClosedPrefix(s: Stream, heard: seq<WorkflowStatus>)
    requires Relays(s, heard) && s.stage == Closed && |s.emitted| > 1
    ensures FirstTerminal(heard) < |heard| && s.emitted[1..] == heard[..FirstTerminal(heard) + 1]
  {
    var sent := s.emitted[1..];
    assert forall j | 0 <= j < |sent| - 1 :: !Terminal(sent[j]);
    assert Terminal(sent[|sent| - 1]);
    FirstTerminalStays(sent, heard);
  }

  /** `status` is announced, and no other terminal status before it. */
  predicate FirstToEnd(heard: seq<WorkflowStatus>, status: WorkflowStatus) {
    exists j | 0 <= j < |heard| :: heard[j] == status && forall k | 0 <= k < j :: !Terminal(heard[k])
  }

  lemma FirstToEndExactly(heard: seq<WorkflowStatus>, status: WorkflowStatus)
    requires Terminal(status) && FirstTerminal(heard) < |heard|
    ensures var k := FirstTerminal(heard);
      && (FirstToEnd(heard, status) <==> heard[k] == status)
      && (heard[k] == status <==> status in heard[..k + 1])
  {
    var k := FirstTerminal(heard);
    assert heard[..k + 1][k] == heard[k];
  }

  /** With the record terminal and its notify done, a stream past its first yield is due. */
  lemma NotifiedMeansDue(hs: seq<Hub>, es: seq<Event>, n: nat, i: nat)
    requires IsRun(hs, es) && n < |hs| && i < |hs[n].streams|
    requires hs[n].pending == 0 && Terminal(hs[n].status)
    requires hs[n].streams[i].stage == Listening || hs[n].streams[i].stage.Relaying?
    ensures Due(hs[n].streams[i])
    ensures i < |hs[n].since| && hs[n].since[i] <= |hs[n].announced|
    ensures FirstTerminal(Heard(hs[n], i)) < |Heard(hs[n], i)|
  {
    RunKeepsFits(hs, es, n);
    var s, heard := hs[n].streams[i], Heard(hs[n], i);
    if s.queue != [] {
      assert Terminal(s.queue[|s.queue| - 1]);
      assert heard[|heard| - 1] == s.queue[|s.queue| - 1];
    } else {
      assert heard == s.emitted[1..];
      assert heard[|heard| - 1] == s.emitted[|s.emitted| - 1];
    }
  }

  /** Once the record is terminal and notified, a stream past its first yield that keeps its client and gets its steps
      closes. What it emitted behind its greeting is then fixed: all announcements up to the first terminal one. */
  lemma PastGreetingDelivers(hs: seq<Hub>, es: seq<Event>, n: nat, m: nat, i: nat)
    requires IsRun(hs, es) && n <= m < |hs| && i < |hs[n].streams|
    requires hs[n].pending == 0 && Terminal(hs[n].status)
    requires hs[n].streams[i].stage == Listening || hs[n].streams[i].stage.Relaying?
    requires NeverDisconnects(es, i, n, m) && StepsOf(es, i, n, m) >= StepsLeft(hs[n].streams[i])
    ensures i < |hs[m].streams| && hs[m].streams[i].stage == Closed && hs[m].streams[i].emitted != []
    ensures i < |hs[n].since| && hs[n].since[i] <= |hs[n].announced|
    ensures var heard, sent := Heard(hs[n], i), hs[m].streams[i].emitted[1..];
      && FirstTerminal(heard) < |heard|
      && sent == heard[..FirstTerminal(heard) + 1]
      && (hs[n].status in sent <==> FirstToEnd(heard, hs[n].status))
  {
    hide Fits;
    NotifiedMeansDue(hs, es, n, i);
    DueStreamCloses(hs, es, n, m, i);
    PastGreetingStays(hs, es, n, m, i);
    ClosedEmitsUpToFirstTerminal(hs, es, m, i);
    HeardGrows(hs, es, n, m, i);
    var heard, later := Heard(hs[n], i), Heard(hs[m], i);
    FirstTerminalStays(heard, later);
    assert later[..FirstTerminal(heard) + 1] == heard[..FirstTerminal(heard) + 1];
    FirstToEndExactly(heard, hs[n].status);
  }

  /** A stream past its greeting closes only behind a later emission. */
  lemma {:induction false} PastGreetingStays(hs: seq<Hub>, es: seq<Event>, n: nat, m: nat, i: nat)
    requires IsRun(hs, es) && n <= m < |hs| && i < |hs[n].streams| && PastGreeting(hs[n].streams[i])
    ensures i < |hs[m].streams| && PastGreeting(hs[m].streams[i])
    decreases m
  {
    hide Next, Enabled, PastGreeting;
    if n < m {
      PastGreetingStays(hs, es, n, m - 1, i);
      RunKeepsFits(hs, es, m - 1);
      StepPastGreeting(hs[m - 1], es[m - 1], i);
    }
  }

  predicate PastGreeting(s: Stream) {
    s.stage != Greeting && (s.stage == Closed ==> |s.emitted| > 1)
  }

  lemma StepPastGreeting(h: Hub, e: Event, i: nat)
    requires Fits(h) && Enabled(h, e) && i < |h.streams| && PastGreeting(h.streams[i])
    ensures i < |Next(h, e).streams| && PastGreeting(Next(h, e).streams[i])
  {
  }

  /** The ordinary approval: APPROVED is announced, then COMPLETED, both before the stream runs. It closes on APPROVED
      and never emits COMPLETED, the record's status. */
  lemma ApprovedHidesCompleted() returns (hs: seq<Hub>, es: seq<Event>)
    ensures IsRun(hs, es) && |hs| == |es| + 1
    ensures var h := hs[|es|];
      && h.status == COMPLETED && h.pending == 0 && |h.streams| == 1
      && h.streams[0].stage == Closed && h.streams[0].emitted == [RUNNING, STATUS_APPROVED]
  {
    hide IsRun;
    hs, es := OneListener();
    hs, es := Extend(hs, es, SetStatus(STATUS_APPROVED));
    NotifyAlone(hs[|es|]);
    hs, es := Extend(hs, es, Notify);
    hs, es := Extend(hs, es, SetStatus(COMPLETED));
    NotifyAlone(hs[|es|]);
    hs, es := Extend(hs, es, Notify);
    assert hs[|es|].streams[0].queue == [STATUS_APPROVED, COMPLETED];
    hs, es := Extend(hs, es, Step(0));
    hs, es := Extend(hs, es, Step(0));
  }

  /** One stream, subscribed while RUNNING and listening. */
  lemma OneListener() returns (hs: seq<Hub>, es: seq<Event>)
    ensures IsRun(hs, es) && |hs| == |es| + 1
    ensures hs[|es|] == Hub(RUNNING, 0, [Stream(Listening, [], [RUNNING])], [], [0])
  {
    hs, es := [Hub(RUNNING, 0, [], [], [])], [];
    hs, es := Extend(hs, es, Subscribe);
    hs, es := Extend(hs, es, Step(0));
  }

  /** Extends a run by one event. */
  lemma Extend(hs: seq<Hub>, es: seq<Event>, e: Event) returns (hs': seq<Hub>, es': seq<Event>)
    requires IsRun(hs, es) && |hs| == |es| + 1 && Enabled(hs[|es|], e)
    ensures IsRun(hs', es') && |hs'| == |es'| + 1
    ensures es' == es + [e] && hs'[|es'|] == Next(hs[|es|], e)
  {
    hs', es' := hs + [Next(hs[|es|], e)], es + [e];
  }

  lemma NotifyAlone(h: Hub)
    requires h.pending > 0 && |h.streams| == 1
    ensures Next(h, Notify) == Hub(h.status, h.pending - 1, [Enqueue(h.streams[0], h.status)],
                                   h.announced + [h.status], h.since)
  {
  }

  // ----- the missed status -----

  /** Stream `i` is the one that the event at `b` created. */
  predicate SubscribedAt(hs: seq<Hub>, es: seq<Event>, b: nat, i: nat) {
    b < |es| && b < |hs| && es[b] == Subscribe && |hs[b].streams| == i
  }

  lemma {:induction false} EveryStreamSubscribed(hs: seq<Hub>, es: seq<Event>, n: nat, i: nat) returns (b: nat)
    requires IsRun(hs, es) && n < |hs| && i < |hs[n].streams|
    ensures b < n && SubscribedAt(hs, es, b, i)
  {
    if i < |hs[n - 1].streams| {
      b := EveryStreamSubscribed(hs, es, n - 1, i);
    } else {
      b := n - 1;
    }
  }

  /** Nothing has happened to stream `i` between the events `b` and `n`. */
  predicate Untouched(es: seq<Event>, b: nat, n: nat, i: nat)
    requires n <= |es|
  {
    forall k | b < k < n :: es[k] != Step(i) && es[k] != Disconnect(i)
  }

  /** A stream first emits the status the record had when it subscribed, and is greeting until its first step. */
  lemma {:induction false} SinceSubscription(hs: seq<Hub>, es: seq<Event>, b: nat, n: nat, i: nat)
    requires IsRun(hs, es) && SubscribedAt(hs, es, b, i) && b < n < |hs|
    ensures i < |hs[n].streams|
    ensures var s := hs[n].streams[i];
      && s.emitted != [] && s.emitted[0] == hs[b].status
      && (s.stage == Greeting <==> Untouched(es, b, n, i))
    decreases n
  {
    if b + 1 < n {
      SinceSubscription(hs, es, b, n - 1, i);
      KeepsGreeting(hs[n - 1], es[n - 1], i);
      assert Untouched(es, b, n, i) <==>
             Untouched(es, b, n - 1, i) && es[n - 1] != Step(i) && es[n - 1] != Disconnect(i);
    }
  }

  lemma KeepsGreeting(h: Hub, e: Event, i: nat)
    requires Enabled(h, e) && i < |h.streams| && h.streams[i].emitted != []
    ensures i < |Next(h, e).streams|
    ensures var s, t := h.streams[i], Next(h, e).streams[i];
      && t.emitted != [] && t.emitted[0] == s.emitted[0]
      && (t.stage == Greeting <==> s.stage == Greeting && e != Step(i) && e != Disconnect(i))
  {
  }

  /** The last status written between the events `b` and `n` is terminal. */
  predicate WritesTerminalLast(es: seq<Event>, b: nat, n: nat)
    requires n <= |es|
  {
    exists w | b < w < n :: es[w].SetStatus? && Terminal(es[w].status) && forall v | w < v < n :: !es[v].SetStatus?
  }

  /** The last status written between the events `b` and `n` is not terminal. */
  predicate WritesOtherLast(es: seq<Event>, b: nat, n: nat)
    requires n <= |es|
  {
    exists w | b < w < n :: es[w].SetStatus? && !Terminal(es[w].status) && forall v | w < v < n :: !es[v].SetStatus?
  }

  lemma {:induction false} TurnsTerminalByWrite(hs: seq<Hub>, es: seq<Event>, b: nat, n: nat)
    requires IsRun(hs, es) && b < n < |hs| && es[b] == Subscribe
    ensures Terminal(hs[n].status) <==>
              WritesTerminalLast(es, b, n) || (Terminal(hs[b].status) && !WritesOtherLast(es, b, n))
    ensures !(WritesTerminalLast(es, b, n) && WritesOtherLast(es, b, n))
    decreases n
  {
    if b + 1 < n {
      TurnsTerminalByWrite(hs, es, b, n - 1);
      LastWriteMoves(es, b, n);
      assert hs[n] == Next(hs[n - 1], es[n - 1]);
    }
  }

  lemma LastWriteMoves(es: seq<Event>, b: nat, n: nat)
    requires b + 1 < n <= |es|
    ensures es[n - 1].SetStatus? ==> (WritesTerminalLast(es, b, n) <==> Terminal(es[n - 1].status))
    ensures es[n - 1].SetStatus? ==> (WritesOtherLast(es, b, n) <==> !Terminal(es[n - 1].status))
    ensures !es[n - 1].SetStatus? ==> (WritesTerminalLast(es, b, n) <==> WritesTerminalLast(es, b, n - 1))
    ensures !es[n - 1].SetStatus? ==> (WritesOtherLast(es, b, n) <==> WritesOtherLast(es, b, n - 1))
  {
  }

  /** The stream subscribed at `b` takes its first step at `n`, and since then the record has been made terminal. */
  predicate Misses(hs: seq<Hub>, es: seq<Event>, b: nat, n: nat, i: nat)
    requires n <= |es| && SubscribedAt(hs, es, b, i)
  {
    Untouched(es, b, n, i) && !Terminal(hs[b].status) && WritesTerminalLast(es, b, n)
  }

  /** A step closes a stream that has not just emitted a terminal status if and only if it is the stream's first, after
      a write that made the record terminal behind its greeting. */
  lemma ClosesWithTerminalUnlessMissed(hs: seq<Hub>, es: seq<Event>, b: nat, n: nat, i: nat)
    requires IsRun(hs, es) && SubscribedAt(hs, es, b, i) && b < n < |es| && es[n] == Step(i)
    requires i < |hs[n].streams| && Open(hs[n].streams[i])
    ensures var s, emitted := hs[n].streams[i], hs[n].streams[i].emitted;
      && emitted != []
      && (Misses(hs, es, b, n, i) <==>
            Resume(s, hs[n].status).stage == Closed && !Terminal(emitted[|emitted| - 1]))
  {
    RunKeepsFits(hs, es, n);
    SinceSubscription(hs, es, b, n, i);
    TurnsTerminalByWrite(hs, es, b, n);
  }

  // ----- whether the record's own status is emitted -----

  /** Every status written from event `n` up to event `m` is terminal. */
  predicate StaysTerminal(es: seq<Event>, n: nat, m: nat)
    requires n <= m <= |es|
  {
    forall k | n <= k < m :: es[k].SetStatus? ==> Terminal(es[k].status)
  }

  /** A stream at its first yield under a terminal record closes at its first step, and emits nothing more. */
  lemma {:induction false} GreetingCloses(hs: seq<Hub>, es: seq<Event>, n: nat, m: nat, i: nat)
    requires IsRun(hs, es) && n <= m < |hs| && i < |hs[n].streams|
    requires hs[n].streams[i].stage == Greeting && Terminal(hs[n].status)
    requires NeverDisconnects(es, i, n, m) && StaysTerminal(es, n, m)
    ensures i < |hs[m].streams| && Terminal(hs[m].status)
    ensures hs[m].streams[i].emitted == hs[n].streams[i].emitted
    ensures hs[m].streams[i].stage == if StepsOf(es, i, n, m) == 0 then Greeting else Closed
    decreases m
  {
    hide Next, Enabled;
    if n < m {
      GreetingCloses(hs, es, n, m - 1, i);
      StepWhenEnding(hs[m - 1], es[m - 1], i);
    }
  }

  lemma StepWhenEnding(h: Hub, e: Event, i: nat)
    requires Enabled(h, e) && e != Disconnect(i) && (e.SetStatus? ==> Terminal(e.status))
    requires Terminal(h.status) && i < |h.streams|
    requires h.streams[i].stage == Greeting || h.streams[i].stage == Closed
    ensures i < |Next(h, e).streams| && Terminal(Next(h, e).status)
    ensures var s, t := h.streams[i], Next(h, e).streams[i];
      t.emitted == s.emitted && t.stage == if e == Step(i) then Closed else s.stage
  {
  }

  /** The steps an open stream needs to its end under a terminal record. */
  function StepsToEnd(s: Stream): nat {
    if s.stage == Greeting then 1 else StepsLeft(s)
  }

  /** Delivery to every open stream, in the middle of any run. Once the record is terminal and notified, a stream that
      keeps its client and gets its steps closes; if it is still at its first yield, the record must not leave its
      terminal state meanwhile. It has emitted the record's status if and only if the record had that status already
      when the stream subscribed, or the stream had taken its first step and no other terminal status was announced
      before. */
  lemma TerminalStatusIsDelivered(hs: seq<Hub>, es: seq<Event>, b: nat, n: nat, m: nat, i: nat)
    requires IsRun(hs, es) && SubscribedAt(hs, es, b, i) && b < n <= m < |hs|
    requires i < |hs[n].streams| && Open(hs[n].streams[i])
    requires hs[n].pending == 0 && Terminal(hs[n].status)
    requires NeverDisconnects(es, i, n, m) && StepsOf(es, i, n, m) >= StepsToEnd(hs[n].streams[i])
    requires Untouched(es, b, n, i) ==> StaysTerminal(es, n, m)
    ensures i < |hs[m].streams| && hs[m].streams[i].stage == Closed
    ensures i < |hs[n].since| && hs[n].since[i] <= |hs[n].announced|
    ensures hs[n].status in hs[m].streams[i].emitted <==>
              || hs[b].status == hs[n].status
              || (!Untouched(es, b, n, i) && FirstToEnd(Heard(hs[n], i), hs[n].status))
  {
    hide Fits, FirstToEnd, StepsLeft;
    RunKeepsSince(hs, es, n, i);
    SinceSubscription(hs, es, b, n, i);
    SinceSubscription(hs, es, b, m, i);
    var sent := hs[m].streams[i].emitted;
    assert sent == [sent[0]] + sent[1..];
    if hs[n].streams[i].stage == Greeting {
      RunKeepsGreetingShort(hs, es, n, i);
      GreetingCloses(hs, es, n, m, i);
    } else {
      PastGreetingDelivers(hs, es, n, m, i);
    }
  }

  lemma RunKeepsSince(hs: seq<Hub>, es: seq<Event>, n: nat, i: nat)
    requires IsRun(hs, es) && n < |hs| && i < |hs[n].streams|
    ensures i < |hs[n].since| && hs[n].since[i] <= |hs[n].announced|
  {
    RunKeepsFits(hs, es, n);
  }

  lemma RunKeepsGreetingShort(hs: seq<Hub>, es: seq<Event>, n: nat, i: nat)
    requires IsRun(hs, es) && n < |hs| && i < |hs[n].streams| && hs[n].streams[i].stage == Greeting
    ensures |hs[n].streams[i].emitted| == 1
  {
    RunKeepsFits(hs, es, n);
  }

  /** A client that connects between APPROVED and COMPLETED: greeted with APPROVED, closed by the record's new status,
      which it never sees. */
  lemma GreetedWithApprovedMissesCompleted() returns (hs: seq<Hub>, es: seq<Event>)
    ensures IsRun(hs, es) && |hs| == |es| + 1
    ensures var h := hs[|es|];
      && h.status == COMPLETED && h.pending == 0 && |h.streams| == 1
      && h.streams[0].stage == Closed && h.streams[0].emitted == [STATUS_APPROVED]
  {
    hs, es := [Hub(STATUS_APPROVED, 0, [], [], [])], [];
    hs, es := Extend(hs, es, Subscribe);
    hs, es := Extend(hs, es, SetStatus(COMPLETED));
    NotifyAlone(hs[|es|]);
    hs, es := Extend(hs, es, Notify);
    hs, es := Extend(hs, es, Step(0));
  }

  /** Such a run exists: subscribed while RUNNING, completed before the first step, closed without a word. */
  lemma AStreamCanMissTheEnd() returns (hs: seq<Hub>, es: seq<Event>)
    ensures IsRun(hs, es)
    ensures var h := hs[|es|];
      && h.status == COMPLETED && h.pending == 0 && |h.streams| == 1
      && h.streams[0].stage == Closed && h.streams[0].emitted == [RUNNING]
  {
    var h0 := Hub(RUNNING, 0, [], [], []);
    var h1 := Next(h0, Subscribe);
    var h2 := Next(h1, SetStatus(COMPLETED));
    var h3 := Next(h2, Notify);
    var h4 := Next(h3, Step(0));
    hs, es := [h0, h1, h2, h3, h4], [Subscribe, SetStatus(COMPLETED), Notify, Step(0)];
  }
}

/** The generator object behind one SSE connection, on the store's own queues. */
module EventStreams {
  import opened Handoff
  import opened StatusStreams
  import opened WorkflowStores

  class EventStream {
    const store: WorkflowStore
    const id: string
    const current: WorkflowRecord
    const queue: EventQueue
    var emitted: seq<WorkflowStatus>
    var stage: Stage

    ghost function Abs(): Stream
      reads this, queue
    {
      Stream(stage, queue.items, emitted)
    }

    /** It is subscribed exactly while it is open. */
    ghost predicate Valid()
      reads this, store, store.records.Values
    {
      && store.Valid()
      && store.Get(id) == current
      && (queue in store.Listeners(id) <==> stage != Closed && stage != Dropped)
    }

    constructor (store: WorkflowStore, id: string)
      requires store.Valid() && id in store.records
      modifies store`subscribers
      ensures Valid() && fresh(queue) && this.store == store && this.id == id
      ensures Abs() == Greet(store.records[id].status)
      ensures store.Listeners(id) == old(store.Listeners(id)) + [queue]
    {
      var q := store.Subscribe(id);
      this.store, this.id, this.queue := store, id, q;
      this.current := store.records[id];
      emitted, stage := [store.records[id].status], Greeting;
    }

    /** Runs to the next suspension; leaving the generator unsubscribes. */
    method Continue()
      requires Valid()
      modifies this, queue, store`subscribers
      ensures Valid() && Abs() == Resume(old(Abs()), current.status)
      ensures forall q | q != queue :: q in store.Listeners(id) <==> q in old(store.Listeners(id))
    {
      match stage
      case Greeting =>
        if Terminal(current.status) {
          Leave(Closed);
        } else {
          stage := Listening;
        }
      case Listening =>
        if queue.items != [] {
          var event := queue.items[0];
          queue.items := queue.items[1..];
          emitted, stage := emitted + [event], Relaying(event);
        }
      case Relaying(event) =>
        if Terminal(event) {
          Leave(Closed);
        } else {
          stage := Listening;
        }
      case _ =>
    }

    /** The finally clause. */
    method Leave(how: Stage)
      requires Valid() && (how == Closed || how == Dropped)
      modifies this`stage, store`subscribers
      ensures Valid() && Abs() == old(Abs()).(stage := how)
      ensures forall q | q != queue :: q in store.Listeners(id) <==> q in old(store.Listeners(id))
    {
      store.Unsubscribe(id, queue);
      stage := how;
    }
  }

  /** One notify, seen from all the streams of an id: each moves as Enqueue says. */
  method Broadcast(store: WorkflowStore, id: string, streams: seq<EventStream>)
    requires store.Valid() && id in store.records
    requires forall s | s in streams :: s.Valid() && s.store == store && s.id == id
    modifies set q | q in store.Listeners(id)
    ensures forall s | s in streams :: s.Valid() && s.Abs() == Enqueue(old(s.Abs()), store.records[id].status)
  {
    store.NotifySubscribers(id);
    forall s | s in streams
      ensures s.Valid() && s.Abs() == Enqueue(old(s.Abs()), store.records[id].status)
    {
      assert old(s.Valid());
    }
  }
}
