/** The agents page: live events folded into the agent list, the pending approvals and the activity feed. */
module AgentStore {
  import opened Seqs

  /** What an event says, by its type; `Other` is any type that changes only the feed. */
  datatype Kind =
    | StateChange(newState: string)
    | KillSwitch(active: bool)
    | ApprovalRequested(approvalId: string)
    | ApprovalResolved(approvalId: string)
    | PipelineUpdate(pipelineId: string, status: string, stage: Option<nat>)
    | TaskUpdate(description: Option<string>)
    | Other(name: string)

  /** An event with a type; `text` stands for its message and other display fields. */
  datatype AgentEvent = AgentEvent(kind: Kind, id: string, agentName: string, taskId: string, text: string)

  datatype Agent = Agent(name: string, state: string, taskId: string, task: string)
  datatype Pipeline = Pipeline(id: string, status: string, stage: nat)
  datatype Approval = Approval(id: string, agentName: string, taskId: string, text: string)
  datatype Activity = Activity(id: string, eventType: string, agentName: string, taskId: string, text: string)

  datatype Store = Store(
    agents: seq<Agent>, pipelines: seq<Pipeline>, killSwitch: bool, approvals: seq<Approval>, feed: seq<Activity>)

  /**
   * What reaches the store: an event (`None` for one that is null or has no type), or the end of an approve
   * or deny request (`ok` false when the request failed).
   */
  datatype Op = Event(event: Option<AgentEvent>) | Approve(approvalId: string, ok: bool) | Deny(approvalId: string, ok: bool)

  const FEED_LIMIT: nat := 200

  function TypeName(kind: Kind): string {
    match kind
    case StateChange(_) => "agent:stateChange"
    case KillSwitch(_) => "agent:killSwitch"
    case ApprovalRequested(_) => "agent:approvalRequested"
    case ApprovalResolved(_) => "agent:approvalResolved"
    case PipelineUpdate(_, _, _) => "agent:pipelineUpdate"
    case TaskUpdate(_) => "agent:taskUpdate"
    case Other(name) => name
  }

  function ApprovalOf(e: AgentEvent): Approval
    requires e.kind.ApprovalRequested?
  {
    Approval(e.kind.approvalId, e.agentName, e.taskId, e.text)
  }

  function ActivityOf(e: AgentEvent): Activity { Activity(e.id, TypeName(e.kind), e.agentName, e.taskId, e.text) }

  /** An agent after an event: only its own state changes and jobs concern it. */
  function AgentAfter(a: Agent, e: AgentEvent): Agent {
    if a.name != e.agentName then a
    else
      match e.kind
      case StateChange(newState) => a.(state := newState)
      case TaskUpdate(description) =>
        a.(taskId := e.taskId, task := if description.Some? then description.value else a.task)
      case _ => a
  }

  function PipelineAfter(p: Pipeline, e: AgentEvent): Pipeline {
    if e.kind.PipelineUpdate? && p.id == e.kind.pipelineId
    then p.(status := e.kind.status, stage := if e.kind.stage.Some? then e.kind.stage.value else p.stage)
    else p
  }

  function Mapped<T>(f: T -> T, s: seq<T>): (r: seq<T>)
    ensures |r| == |s| && forall i :: 0 <= i < |r| ==> r[i] == f(s[i])
  {
    if s == [] then [] else [f(s[0])] + Mapped(f, s[1..])
  }

  function Unresolved(approvals: seq<Approval>, id: string): seq<Approval> {
    if approvals == [] then []
    else
      var rest := Unresolved(approvals[1..], id);
      if approvals[0].id == id then rest else [approvals[0]] + rest
  }

  function Handled(s: Store, e: AgentEvent): Store {
    match e.kind
    case StateChange(_) => s.(agents := Mapped((a: Agent) => AgentAfter(a, e), s.agents))
    case KillSwitch(active) => s.(killSwitch := active)
    case ApprovalRequested(_) => s.(approvals := [ApprovalOf(e)] + s.approvals)
    case ApprovalResolved(id) => s.(approvals := Unresolved(s.approvals, id))
    case PipelineUpdate(_, _, _) => s.(pipelines := Mapped((p: Pipeline) => PipelineAfter(p, e), s.pipelines))
    case TaskUpdate(_) => s.(agents := Mapped((a: Agent) => AgentAfter(a, e), s.agents))
    case Other(_) => s
  }

  function Fed(feed: seq<Activity>, e: AgentEvent): seq<Activity> { Take([ActivityOf(e)] + feed, FEED_LIMIT) }

  function Step(s: Store, op: Op): Store {
    match op
    case Event(None) => s
    case Event(Some(e)) => Handled(s, e).(feed := Fed(s.feed, e))
    case Approve(id, ok) => if ok then s.(approvals := Unresolved(s.approvals, id)) else s
    case Deny(id, ok) => if ok then s.(approvals := Unresolved(s.approvals, id)) else s
  }

  function Exec(s: Store, ops: seq<Op>): Store
    decreases |ops|
  {
    if ops == [] then s else Exec(Step(s, ops[0]), ops[1..])
  }

  // ----- The specification: what the lists must be, read off the whole log -----

  predicate Resolves(op: Op, id: string) {
    match op
    case Event(Some(e)) => e.kind == ApprovalResolved(id)
    case Event(None) => false
    case Approve(a, ok) => ok && a == id
    case Deny(a, ok) => ok && a == id
  }

  predicate ResolvedIn(ops: seq<Op>, id: string) { exists i :: 0 <= i < |ops| && Resolves(ops[i], id) }

  predicate Requests(op: Op) { op.Event? && op.event.Some? && op.event.value.kind.ApprovalRequested? }

  /** The requests of the log that no later operation resolves, newest first. */
  function StillOpen(ops: seq<Op>): seq<Approval> {
    if ops == [] then []
    else if Requests(ops[0]) then
      var e := ops[0].event.value;
      if ResolvedIn(ops[1..], e.kind.approvalId) then StillOpen(ops[1..])
      else StillOpen(ops[1..]) + [Approval(e.kind.approvalId, e.agentName, e.taskId, e.text)]
    else StillOpen(ops[1..])
  }

  /** The approvals of `list` that no operation of the log resolves. */
  function Surviving(list: seq<Approval>, ops: seq<Op>): seq<Approval> {
    if list == [] then []
    else
      var rest := Surviving(list[1..], ops);
      if ResolvedIn(ops, list[0].id) then rest else [list[0]] + rest
  }

  /** The events of the log, oldest first. */
  function Logged(ops: seq<Op>): seq<AgentEvent> {
    if ops == [] then []
    else if ops[0].Event? && ops[0].event.Some? then [ops[0].event.value] + Logged(ops[1..])
    else Logged(ops[1..])
  }

  /** The feed entry `a` shows the event `e`. */
  predicate Shows(a: Activity, e: AgentEvent) {
    && a.id == e.id && a.agentName == e.agentName && a.taskId == e.taskId && a.text == e.text
    && (e.kind.StateChange? ==> a.eventType == "agent:stateChange")
    && (e.kind.KillSwitch? ==> a.eventType == "agent:killSwitch")
    && (e.kind.ApprovalRequested? ==> a.eventType == "agent:approvalRequested")
    && (e.kind.ApprovalResolved? ==> a.eventType == "agent:approvalResolved")
    && (e.kind.PipelineUpdate? ==> a.eventType == "agent:pipelineUpdate")
    && (e.kind.TaskUpdate? ==> a.eventType == "agent:taskUpdate")
    && (e.kind.Other? ==> a.eventType == e.kind.name)
  }

  lemma ResolvedCons(ops: seq<Op>, id: string)
    requires ops != []
    ensures ResolvedIn(ops, id) <==> Resolves(ops[0], id) || ResolvedIn(ops[1..], id)
  {
    if ResolvedIn(ops[1..], id) {
      var i :| 0 <= i < |ops[1..]| && Resolves(ops[1..][i], id);
      assert Resolves(ops[i + 1], id);
    }
    if ResolvedIn(ops, id) && !Resolves(ops[0], id) {
      var i :| 0 <= i < |ops| && Resolves(ops[i], id);
      assert Resolves(ops[1..][i - 1], id);
    }
  }

  /** Resolving one id first and the rest of the log later, or the whole log at once. */
  lemma {:induction false} SurvivingCons(list: seq<Approval>, ops: seq<Op>)
    requires ops != []
    ensures Surviving(list, ops) ==
      if exists id :: Resolves(ops[0], id) then Surviving(Unresolved(list, ResolvedId(ops[0])), ops[1..])
      else Surviving(list, ops[1..])
  {
    hide ResolvedIn, Resolves;
    if list != [] {
      SurvivingCons(list[1..], ops);
      ResolvedCons(ops, list[0].id);
      OnlyResolvedId(ops[0], list[0].id);
      var id := ResolvedId(ops[0]);
      var rest := Unresolved(list[1..], id);
      assert ([list[0]] + rest)[1..] == rest;
    }
  }

  function ResolvedId(op: Op): string {
    match op
    case Event(Some(e)) => if e.kind.ApprovalResolved? then e.kind.approvalId else ""
    case Event(None) => ""
    case Approve(a, _) => a
    case Deny(a, _) => a
  }

  lemma OnlyResolvedId(op: Op, id: string)
    ensures Resolves(op, id) ==> id == ResolvedId(op)
    ensures Resolves(op, ResolvedId(op)) <==> exists x :: Resolves(op, x)
  {
  }

  lemma SurvivingFront(a: Approval, list: seq<Approval>, ops: seq<Op>)
    ensures Surviving([a] + list, ops) == (if ResolvedIn(ops, a.id) then [] else [a]) + Surviving(list, ops)
  {
    hide ResolvedIn;
    assert ([a] + list)[1..] == list;
    if ResolvedIn(ops, a.id) { assert [] + Surviving(list, ops) == Surviving(list, ops); }
  }

  lemma RequestResolvesNothing(op: Op)
    requires Requests(op)
    ensures !Resolves(op, ResolvedId(op))
  {
  }

  lemma Between<T>(s: seq<T>, x: T, t: seq<T>)
    ensures s + ([x] + t) == (s + [x]) + t && s + ([] + t) == s + t
  {
  }

  /**
   * After any run, the pending approvals are the requests of the run that nothing later resolved, newest
   * first, before those of the starting list that nothing resolved.
   */
  lemma {:induction false} ApprovalsAreStillOpen(s: Store, ops: seq<Op>)
    ensures Exec(s, ops).approvals == StillOpen(ops) + Surviving(s.approvals, ops)
    decreases |ops|
  {
    hide Step, ResolvedIn, Resolves, Unresolved, Surviving, ResolvedId;
    if ops == [] {
      SurvivingNil(s.approvals);
    } else {
      ApprovalsAreStillOpen(Step(s, ops[0]), ops[1..]);
      SurvivingCons(s.approvals, ops);
      OnlyResolvedId(ops[0], ResolvedId(ops[0]));
      StepApprovals(s, ops[0]);
      if Requests(ops[0]) {
        var e := ops[0].event.value;
        var a := Approval(e.kind.approvalId, e.agentName, e.taskId, e.text);
        RequestResolvesNothing(ops[0]);
        SurvivingFront(a, s.approvals, ops[1..]);
        Between(StillOpen(ops[1..]), a, Surviving(s.approvals, ops[1..]));
      }
    }
  }

  lemma StepApprovals(s: Store, op: Op)
    ensures Step(s, op).approvals ==
      if Requests(op) then
        var e := op.event.value; [Approval(e.kind.approvalId, e.agentName, e.taskId, e.text)] + s.approvals
      else if Resolves(op, ResolvedId(op)) then Unresolved(s.approvals, ResolvedId(op))
      else s.approvals
  {
  }

  lemma {:induction false} SurvivingNil(list: seq<Approval>)
    ensures Surviving(list, []) == list
  {
    if list != [] { SurvivingNil(list[1..]); }
  }

  /** Nothing in `list` waits for `id`. */
  predicate NotPending(id: string, list: seq<Approval>) { forall a :: a in list ==> a.id != id }

  lemma {:induction false} SurvivingMembers(list: seq<Approval>, ops: seq<Op>)
    ensures forall a :: a in Surviving(list, ops) <==> a in list && !ResolvedIn(ops, a.id)
  {
    hide ResolvedIn;
    if list != [] { SurvivingMembers(list[1..], ops); }
  }

  predicate RequestsId(op: Op, id: string) {
    op.Event? && op.event.Some? && op.event.value.kind == ApprovalRequested(id)
  }

  predicate RequestedIn(ops: seq<Op>, id: string) { exists i :: 0 <= i < |ops| && RequestsId(ops[i], id) }

  lemma {:induction false} OpenWasRequested(ops: seq<Op>, id: string)
    requires !RequestedIn(ops, id)
    ensures NotPending(id, StillOpen(ops))
  {
    hide ResolvedIn;
    if ops != [] {
      assert !RequestsId(ops[0], id);
      OpenWasRequested(ops[1..], id);
    }
  }

  lemma {:induction false} ExecAppend(s: Store, es: seq<Op>, fs: seq<Op>)
    ensures Exec(s, es + fs) == Exec(Exec(s, es), fs)
    decreases |es|
  {
    hide Step;
    if es == [] {
      assert es + fs == fs;
    } else {
      ExecAppend(Step(s, es[0]), es[1..], fs);
      assert (es + fs)[1..] == es[1..] + fs;
    }
  }

  /**
   * Once `id` was resolved by an event, approved or denied, nothing waits for it, until it is requested again:
   * whatever came before, and whatever else comes after.
   */
  lemma ResolvedIsGone(s: Store, before: seq<Op>, op: Op, after: seq<Op>, id: string)
    requires op == Approve(id, true) || op == Deny(id, true)
      || (op.Event? && op.event.Some? && op.event.value.kind == ApprovalResolved(id))
    requires !RequestedIn(after, id)
    ensures NotPending(id, Exec(s, before + [op] + after).approvals)
  {
    var t := Exec(s, before);
    assert before + [op] + after == before + ([op] + after);
    ExecAppend(s, before, [op] + after);
    ApprovalsAreStillOpen(t, [op] + after);
    assert Resolves(([op] + after)[0], id);
    SurvivingMembers(t.approvals, [op] + after);
    assert ([op] + after)[1..] == after;
    OpenWasRequested(after, id);
    hide Exec, ResolvedIn, StillOpen, Surviving;
    assert StillOpen([op] + after) == StillOpen(after) by { ResolvingOpensNothing(op, after, id); }
    assert ResolvedIn([op] + after, id) by { ResolvedFirst(op, after, id); }
  }

  lemma ResolvingOpensNothing(op: Op, after: seq<Op>, id: string)
    requires Resolves(op, id)
    ensures StillOpen([op] + after) == StillOpen(after)
  {
    assert ([op] + after)[1..] == after;
  }

  lemma ResolvedFirst(op: Op, after: seq<Op>, id: string)
    requires Resolves(op, id)
    ensures ResolvedIn([op] + after, id)
  {
    assert ([op] + after)[0] == op;
  }

  /** A request waits, with its own id and text, as long as nothing resolves that id. */
  lemma RequestStaysOpen(s: Store, before: seq<Op>, e: AgentEvent, after: seq<Op>, id: string)
    requires e.kind == ApprovalRequested(id) && !ResolvedIn(after, id)
    ensures Approval(id, e.agentName, e.taskId, e.text) in Exec(s, before + [Event(Some(e))] + after).approvals
  {
    var t, ops := Exec(s, before), [Event(Some(e))] + after;
    assert before + [Event(Some(e))] + after == before + ops;
    ExecAppend(s, before, ops);
    ApprovalsAreStillOpen(t, ops);
    hide Exec, ResolvedIn, Surviving;
    assert ops[1..] == after;
    var open := StillOpen(after) + [Approval(id, e.agentName, e.taskId, e.text)];
    assert StillOpen(ops) == open;
    assert open[|open| - 1] in open + Surviving(t.approvals, ops);
  }

  /**
   * `feed` shows the events of `log`, the newest first, then what `old'` showed; as many of all these as there
   * are, up to 200.
   */
  predicate FeedShows(feed: seq<Activity>, log: seq<AgentEvent>, old': seq<Activity>) {
    && |feed| == (if |log| + |old'| <= 200 then |log| + |old'| else 200)
    && forall i :: 0 <= i < |feed| ==>
         if i < |log| then Shows(feed[i], log[|log| - 1 - i]) else feed[i] == old'[i - |log|]
  }

  /** What is newer than the feed after one event is newer than the event. */
  lemma FeedShowsMore(feed: seq<Activity>, e: AgentEvent, later: seq<AgentEvent>, mid: seq<Activity>, old': seq<Activity>)
    requires |old'| <= 200 && FeedShows(mid, [e], old') && FeedShows(feed, later, mid)
    ensures FeedShows(feed, [e] + later, old')
  {
    hide Shows;
    var log := [e] + later;
    forall i | 0 <= i < |feed|
      ensures if i < |log| then Shows(feed[i], log[|log| - 1 - i]) else feed[i] == old'[i - |log|]
    {
      if i < |later| {
        assert log[|log| - 1 - i] == later[|later| - 1 - i];
      } else {
        assert feed[i] == mid[i - |later|];
      }
    }
  }

  /** After any run the feed shows the reversed log, and what it showed before, cut to 200 entries. */
  lemma {:induction false} FeedShowsLog(s: Store, ops: seq<Op>)
    requires |s.feed| <= 200
    ensures FeedShows(Exec(s, ops).feed, Logged(ops), s.feed)
    decreases |ops|
  {
    if ops != [] {
      var t := Step(s, ops[0]);
      StepFeed(s, ops[0]);
      FeedShowsLog(t, ops[1..]);
      hide Step, FeedShows;
      if ops[0].Event? && ops[0].event.Some? {
        FeedShowsMore(Exec(s, ops).feed, ops[0].event.value, Logged(ops[1..]), t.feed, s.feed);
      }
    }
  }

  lemma StepFeed(s: Store, op: Op)
    requires |s.feed| <= 200
    ensures |Step(s, op).feed| <= 200
    ensures if op.Event? && op.event.Some? then FeedShows(Step(s, op).feed, [op.event.value], s.feed)
      else Step(s, op).feed == s.feed
  {
  }

  /** The kill switch is as the last event about it says. */
  function LastSwitch(before: bool, log: seq<AgentEvent>): bool {
    if log == [] then before
    else if log[|log| - 1].kind.KillSwitch? then log[|log| - 1].kind.active
    else LastSwitch(before, log[..|log| - 1])
  }

  lemma LastSwitchCons(before: bool, e: AgentEvent, log: seq<AgentEvent>)
    ensures LastSwitch(before, [e] + log) == LastSwitch(if e.kind.KillSwitch? then e.kind.active else before, log)
  {
    if log != [] {
      LastSwitchCons(before, e, log[..|log| - 1]);
      assert ([e] + log)[..|log|] == [e] + log[..|log| - 1];
    }
  }

  lemma {:induction false} SwitchIsLast(s: Store, ops: seq<Op>)
    ensures Exec(s, ops).killSwitch == LastSwitch(s.killSwitch, Logged(ops))
    decreases |ops|
  {
    if ops != [] {
      StepSwitch(s, ops[0]);
      SwitchIsLast(Step(s, ops[0]), ops[1..]);
      hide Step, LastSwitch;
      if ops[0].Event? && ops[0].event.Some? {
        LastSwitchCons(s.killSwitch, ops[0].event.value, Logged(ops[1..]));
      }
    }
  }

  lemma StepSwitch(s: Store, op: Op)
    ensures Step(s, op).killSwitch ==
      if op.Event? && op.event.Some? && op.event.value.kind.KillSwitch? then op.event.value.kind.active else s.killSwitch
  {
  }

  /** The agent's part of the log, folded on its own. */
  function AgentAfterAll(a: Agent, ops: seq<Op>): Agent
    decreases |ops|
  {
    if ops == [] then a
    else if ops[0].Event? && ops[0].event.Some? then AgentAfterAll(AgentAfter(a, ops[0].event.value), ops[1..])
    else AgentAfterAll(a, ops[1..])
  }

  function PipelineAfterAll(p: Pipeline, ops: seq<Op>): Pipeline
    decreases |ops|
  {
    if ops == [] then p
    else if ops[0].Event? && ops[0].event.Some? then PipelineAfterAll(PipelineAfter(p, ops[0].event.value), ops[1..])
    else PipelineAfterAll(p, ops[1..])
  }

  lemma StepAgents(s: Store, op: Op)
    ensures var t := Step(s, op);
      && |t.agents| == |s.agents| && |t.pipelines| == |s.pipelines|
      && (forall i :: 0 <= i < |s.agents| ==>
            t.agents[i] == if op.Event? && op.event.Some? then AgentAfter(s.agents[i], op.event.value) else s.agents[i])
      && (forall i :: 0 <= i < |s.pipelines| ==>
            t.pipelines[i] ==
              if op.Event? && op.event.Some? then PipelineAfter(s.pipelines[i], op.event.value) else s.pipelines[i])
  {
  }

  /** Agents and pipelines never mix: each is what its own events, in order, make of it, over every run. */
  lemma {:induction false} AgentsFoldTheirEvents(s: Store, ops: seq<Op>)
    ensures var t := Exec(s, ops);
      && |t.agents| == |s.agents| && |t.pipelines| == |s.pipelines|
      && (forall i :: 0 <= i < |s.agents| ==> t.agents[i] == AgentAfterAll(s.agents[i], ops))
      && (forall i :: 0 <= i < |s.pipelines| ==> t.pipelines[i] == PipelineAfterAll(s.pipelines[i], ops))
    decreases |ops|
  {
    hide Step, AgentAfter, PipelineAfter;
    if ops != [] {
      StepAgents(s, ops[0]);
      AgentsFoldTheirEvents(Step(s, ops[0]), ops[1..]);
    }
  }

  /** The state that the last state change of the agent named `name` in the log gives it. */
  function LastState(name: string, before: string, ops: seq<Op>): string
    decreases |ops|
  {
    if ops == [] then before
    else if ops[0].Event? && ops[0].event.Some? && ops[0].event.value.agentName == name
            && ops[0].event.value.kind.StateChange?
    then LastState(name, ops[0].event.value.kind.newState, ops[1..])
    else LastState(name, before, ops[1..])
  }

  /** The job that the last job update names, and its description: the last one that was given. */
  function LastJob(name: string, before: (string, string), ops: seq<Op>): (string, string)
    decreases |ops|
  {
    if ops == [] then before
    else if ops[0].Event? && ops[0].event.Some? && ops[0].event.value.agentName == name
            && ops[0].event.value.kind.TaskUpdate?
    then
      var e := ops[0].event.value;
      LastJob(name, (e.taskId, if e.kind.description.Some? then e.kind.description.value else before.1), ops[1..])
    else LastJob(name, before, ops[1..])
  }

  /** The status that the last update of the pipeline gives it, and its stage: the last one that was given. */
  function LastProgress(id: string, before: (string, nat), ops: seq<Op>): (string, nat)
    decreases |ops|
  {
    if ops == [] then before
    else if ops[0].Event? && ops[0].event.Some? && ops[0].event.value.kind.PipelineUpdate?
            && ops[0].event.value.kind.pipelineId == id
    then
      var k := ops[0].event.value.kind;
      LastProgress(id, (k.status, if k.stage.Some? then k.stage.value else before.1), ops[1..])
    else LastProgress(id, before, ops[1..])
  }

  lemma {:induction false} AgentKeepsLast(a: Agent, ops: seq<Op>)
    ensures var b := AgentAfterAll(a, ops);
      && b.name == a.name && b.state == LastState(a.name, a.state, ops)
      && (b.taskId, b.task) == LastJob(a.name, (a.taskId, a.task), ops)
    decreases |ops|
  {
    if ops != [] {
      if ops[0].Event? && ops[0].event.Some? {
        AgentKeepsLast(AgentAfter(a, ops[0].event.value), ops[1..]);
      } else {
        AgentKeepsLast(a, ops[1..]);
      }
    }
  }

  lemma {:induction false} PipelineKeepsLast(p: Pipeline, ops: seq<Op>)
    ensures var q := PipelineAfterAll(p, ops);
      q.id == p.id && (q.status, q.stage) == LastProgress(p.id, (p.status, p.stage), ops)
    decreases |ops|
  {
    if ops != [] {
      if ops[0].Event? && ops[0].event.Some? {
        PipelineKeepsLast(PipelineAfter(p, ops[0].event.value), ops[1..]);
      } else {
        PipelineKeepsLast(p, ops[1..]);
      }
    }
  }

  /**
   * After any run each agent has the state of its last state change and the job of its last job update, and each
   * pipeline the status of its last update, whatever the others did.
   */
  lemma AgentsAreCurrent(s: Store, ops: seq<Op>)
    ensures var t := Exec(s, ops);
      && |t.agents| == |s.agents| && |t.pipelines| == |s.pipelines|
      && (forall i :: 0 <= i < |s.agents| ==>
            var a, b := s.agents[i], t.agents[i];
            && b.name == a.name && b.state == LastState(a.name, a.state, ops)
            && (b.taskId, b.task) == LastJob(a.name, (a.taskId, a.task), ops))
      && (forall i :: 0 <= i < |s.pipelines| ==>
            var p, q := s.pipelines[i], t.pipelines[i];
            q.id == p.id && (q.status, q.stage) == LastProgress(p.id, (p.status, p.stage), ops))
  {
    hide Exec, AgentAfterAll, PipelineAfterAll, LastState, LastJob, LastProgress;
    AgentsFoldTheirEvents(s, ops);
    forall i | 0 <= i < |s.agents| { AgentKeepsLast(s.agents[i], ops); }
    forall i | 0 <= i < |s.pipelines| { PipelineKeepsLast(s.pipelines[i], ops); }
  }

  class AgentStore {
    var agents: seq<Agent>
    var pipelines: seq<Pipeline>
    var killSwitchActive: bool
    var pendingApprovals: seq<Approval>
    var activityEvents: seq<Activity>

    ghost function State(): Store
      reads this
    {
      Store(agents, pipelines, killSwitchActive, pendingApprovals, activityEvents)
    }

    constructor ()
      ensures State() == Store([], [], false, [], [])
    {
      agents, pipelines, killSwitchActive, pendingApprovals, activityEvents := [], [], false, [], [];
    }

    /** Two updates per event: the one its type asks for, then the feed. */
    method HandleAgentEvent(event: Option<AgentEvent>)
      modifies this
      ensures State() == Step(old(State()), Event(event))
    {
      if event.None? { return; }
      var e := event.value;
      if e.kind.StateChange? {
        agents := Mapped((a: Agent) => AgentAfter(a, e), agents);
      } else if e.kind.KillSwitch? {
        killSwitchActive := e.kind.active;
      } else if e.kind.ApprovalRequested? {
        pendingApprovals := [Approval(e.kind.approvalId, e.agentName, e.taskId, e.text)] + pendingApprovals;
      } else if e.kind.ApprovalResolved? {
        pendingApprovals := Unresolved(pendingApprovals, e.kind.approvalId);
      } else if e.kind.PipelineUpdate? {
        pipelines := Mapped((p: Pipeline) => PipelineAfter(p, e), pipelines);
      } else if e.kind.TaskUpdate? {
        agents := Mapped((a: Agent) => AgentAfter(a, e), agents);
      }
      var longer := [Activity(e.id, TypeName(e.kind), e.agentName, e.taskId, e.text)] + activityEvents;
      activityEvents := Take(longer, FEED_LIMIT);
    }

    method OnApproved(approvalId: string, ok: bool)
      modifies this
      ensures State() == Step(old(State()), Approve(approvalId, ok))
    {
      if ok { pendingApprovals := Unresolved(pendingApprovals, approvalId); }
    }

    method OnDenied(approvalId: string, ok: bool)
      modifies this
      ensures State() == Step(old(State()), Deny(approvalId, ok))
    {
      if ok { pendingApprovals := Unresolved(pendingApprovals, approvalId); }
    }
  }
}
