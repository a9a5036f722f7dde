/**
 The immediate runner: a flow that never asks for the task center runs to its end where it is
 submitted, before anything else happens.
 */
module Immediate {
  import opened Wrappers
  import opened Flow

  /** The flow, its stages, and the flows they return, down to the given depth, are run immediately. */
  ghost predicate PromptFlow(f: Chain, depth: nat)
    decreases depth, 1
  {
    && f.runner == Immediate && f.tail == Immediate
    && forall i | 0 <= i < |f.stages| :: PromptStage(f.stages[i], depth)
  }

  ghost predicate PromptStage(stage: Stage, depth: nat)
    decreases depth, 0
  {
    && stage.runner == Immediate
    && (depth > 0 ==> forall arg :: stage.body(arg).Nested? ==> PromptFlow(stage.body(arg).flow, depth - 1))
  }

  /** However deep. */
  ghost predicate AtOnce(f: Chain) { forall depth: nat :: PromptFlow(f, depth) }

  ghost predicate StageAtOnce(stage: Stage) { forall depth: nat :: PromptStage(stage, depth) }

  lemma StagesAtOnce(f: Chain, i: nat)
    requires AtOnce(f) && i < |f.stages|
    ensures StageAtOnce(f.stages[i]) && f.stages[i].runner == Immediate
  {
    forall depth: nat
      ensures PromptStage(f.stages[i], depth)
    {
      assert PromptFlow(f, depth);
    }
    assert PromptStage(f.stages[i], 0);
  }

  lemma NestedAtOnce(stage: Stage, arg: Arg)
    requires StageAtOnce(stage) && stage.body(arg).Nested?
    ensures AtOnce(stage.body(arg).flow)
  {
    forall depth: nat
      ensures PromptFlow(stage.body(arg).flow, depth)
    {
      assert PromptStage(stage, depth + 1);
    }
  }

  lemma RunnersAtOnce(f: Chain)
    requires AtOnce(f)
    ensures f.runner == Immediate && f.tail == Immediate
  {
    assert PromptFlow(f, 0);
  }

  // ---------------------------------------------------------------- invariant

  /** Submission j never asks for the task center. */
  ghost predicate Hurries(flows: seq<Submitted>, j: nat) { j < |flows| && AtOnce(flows[j].flow) }

  ghost predicate NodeOk(flows: seq<Submitted>, node: Node) {
    && node.owner < |flows|
    && (Hurries(flows, node.owner) ==>
      && node.runner == Immediate
      && (node.act.Some? && node.act.value.Call? ==> StageAtOnce(node.act.value.stage)))
  }

  ghost predicate NodesOk(flows: seq<Submitted>, nodes: seq<Node>) {
    forall i | 0 <= i < |nodes| :: NodeOk(flows, nodes[i])
  }

  /** None of its tasks waits in the queue; those on the stack date from the pass it was submitted in. */
  ghost predicate QueueOk(flows: seq<Submitted>, queue: seq<Task>) {
    forall i | 0 <= i < |queue| :: queue[i].owner < |flows| && !Hurries(flows, queue[i].owner)
  }

  ghost predicate StackOk(flows: seq<Submitted>, stack: seq<Task>, pass: nat) {
    forall i | 0 <= i < |stack| ::
      stack[i].owner < |flows| && (Hurries(flows, stack[i].owner) ==> flows[stack[i].owner].pass == pass)
  }

  ghost predicate LogOk(flows: seq<Submitted>, log: seq<Event>) {
    forall i | 0 <= i < |log| ::
      log[i].owner < |flows| && (Hurries(flows, log[i].owner) ==> log[i].pass == flows[log[i].owner].pass)
  }

  ghost predicate Prompt(s: State) {
    NodesOk(s.flows, s.nodes) && QueueOk(s.flows, s.queue) && StackOk(s.flows, s.stack, s.pass) && LogOk(s.flows, s.log)
  }

  lemma ScheduleKeeps(s: State, r: Runner, t: Task)
    requires Prompt(s) && t.owner < |s.flows|
    requires Hurries(s.flows, t.owner) ==> r == Immediate && s.flows[t.owner].pass == s.pass
    ensures Prompt(Schedule(s, r, t))
  {
    hide Hurries, NodeOk;
  }

  lemma TriggerKeeps(s: State, n: nat, arg: Arg)
    requires Prompt(s) && n < |s.nodes|
    requires Hurries(s.flows, s.nodes[n].owner) ==> s.flows[s.nodes[n].owner].pass == s.pass
    ensures Prompt(Trigger(s, n, arg))
  {
    hide Hurries;
    assert NodeOk(s.flows, s.nodes[n]);
    if !s.nodes[n].called {
      var s' := s.(nodes := Trigger(s, n, arg).nodes);
      forall i | 0 <= i < |s'.nodes|
        ensures NodeOk(s.flows, s'.nodes[i])
      {
        assert NodeOk(s.flows, s.nodes[i]);
      }
      if s.nodes[n].act.Some? { ScheduleKeeps(s', s.nodes[n].runner, Act(n, s.nodes[n].owner)); }
    }
  }

  lemma LaunchKeeps(s: State, f: Chain, last: Node)
    requires Prompt(s) && NodeOk(s.flows, last)
    requires Hurries(s.flows, last.owner) ==> AtOnce(f) && s.flows[last.owner].pass == s.pass
    ensures Prompt(Launch(s, f, last))
  {
    hide Hurries, AtOnce, StageAtOnce, Schedule;
    var s' := s.(nodes := s.nodes + Build(|s.nodes|, f.stages, last));
    forall i | 0 <= i < |s'.nodes|
      ensures NodeOk(s.flows, s'.nodes[i])
    {
      if i < |s.nodes| {
        assert NodeOk(s.flows, s.nodes[i]);
      } else if i < |s.nodes| + |f.stages| && Hurries(s.flows, last.owner) {
        StagesAtOnce(f, i - |s.nodes|);
      }
    }
    if Hurries(s.flows, last.owner) { RunnersAtOnce(f); }
    ScheduleKeeps(s', f.runner, Start(|s.nodes|, last.owner, f.init));
  }

  lemma LogKeeps(s: State, e: Event, n: nat)
    requires Prompt(s) && e.owner < |s.flows| && (Hurries(s.flows, e.owner) ==> e.pass == s.flows[e.owner].pass)
    ensures Prompt(s.(log := s.log + [e], ran := s.ran + [n]))
  {
    hide Hurries, NodeOk;
  }

  lemma PerformKeeps(s: State, a: Aux, t: Task)
    requires Prompt(s) && Inv(s, a, t.owner) && TaskOk(s.nodes, a, t) && t.Act?
    requires Hurries(s.flows, t.owner) ==> s.flows[t.owner].pass == s.pass
    ensures t.n < |s.nodes| && Prompt(Perform(s, t.n))
  {
    hide Inv, TaskOk, Hurries, Busy, QueueOk, StackOk, LogOk, Trigger, Launch, AtOnce, StageAtOnce;
    KnowNext(s, a, t);
    var n, node := t.n, s.nodes[t.n];
    assert NodeOk(s.flows, node);
    match node.act
    case Some(Relay(target)) => TriggerKeeps(s.(ran := s.ran + [n]), target, node.value);
    case Some(Call(stage, next)) =>
      var o := stage.body(node.value);
      var e := Event(node.owner, stage.tag, node.value, s.pass);
      LogKeeps(s, e, n);
      var s' := s.(log := s.log + [e], ran := s.ran + [n]);
      if o.Nested? {
        if Hurries(s.flows, node.owner) {
          NestedAtOnce(stage, node.value);
          RunnersAtOnce(o.flow);
        }
        LaunchKeeps(s', o.flow, Node(false, Some(Relay(next)), o.flow.tail, Mono, node.owner));
      } else {
        TriggerKeeps(s', next, Outward(o));
      }
  }

  lemma RunKeeps(s: State, a: Aux)
    requires Prompt(s) && Inv(s, a, -1)
    ensures Prompt(Next(s, Run))
  {
    hide Inv, TaskOk, Hurries, QueueOk, NodesOk, LogOk, Trigger, Perform;
    if s.stack != [] {
      var t := s.stack[|s.stack| - 1];
      var s' := TakeTop(s, a);
      assert s'.stack <= s.stack && StackOk(s.flows, s'.stack, s.pass);
      KnowTask(s.nodes, a, t);
      if t.Start? { TriggerKeeps(s', t.n, t.arg); } else { PerformKeeps(s', a, t); }
    }
  }

  lemma SubmitKeeps(s: State, f: Chain)
    requires Prompt(s)
    ensures Prompt(Next(s, Submit(f)))
  {
    hide AtOnce, Launch;
    var s' := s.(flows := s.flows + [Submitted(f, s.pass)]);
    forall i | 0 <= i < |s.nodes|
      ensures NodeOk(s'.flows, s.nodes[i])
    {
      assert NodeOk(s.flows, s.nodes[i]);
    }
    if AtOnce(f) { RunnersAtOnce(f); }
    LaunchKeeps(s', f, Node(false, None, f.tail, Mono, |s.flows|));
  }

  lemma MoveKeeps(s: State, step: Step)
    requires Prompt(s) && (step == Begin || step == Pick)
    ensures Prompt(Next(s, step))
  {
    hide Hurries, NodeOk;
  }

  lemma {:induction false} ExecPrompt(steps: seq<Step>)
    requires Unpoked(steps)
    ensures Prompt(Exec(steps))
  {
    hide Prompt, Inv;
    if steps == [] {
      InitPrompt();
    } else {
      var before, last := steps[..|steps| - 1], steps[|steps| - 1];
      ExecPrompt(before);
      var s := Exec(before);
      match last
      case Submit(f) => SubmitKeeps(s, f);
      case Begin => MoveKeeps(s, Begin);
      case Pick => MoveKeeps(s, Pick);
      case Run =>
        var a := ExecInv(before);
        RunKeeps(s, a);
    }
  }

  lemma InitPrompt()
    ensures Prompt(Init())
  {
  }

  // ---------------------------------------------------------------- what every run guarantees

  lemma {:induction false} NotOwner(tasks: seq<Task>, j: nat)
    requires forall i | 0 <= i < |tasks| :: tasks[i].owner != j
    ensures Owners(tasks)[j] == 0
  {
    if tasks != [] { NotOwner(tasks[..|tasks| - 1], j); }
  }

  /**
   In every run, all calls of a flow that never asks for the task center are made in the pass in
   which it was submitted; and whenever the runner's stack is empty, so that the task center may
   take its next task or begin its next pass, none of them is still to be made.
   */
  lemma RunsAtOnce(steps: seq<Step>, j: nat, n: nat)
    requires Unpoked(steps) && j < |Exec(steps).flows| && AtOnce(Exec(steps).flows[j].flow)
    ensures var s := Exec(steps);
      forall i | 0 <= i < |s.log| && s.log[i].owner == j :: s.log[i].pass == s.flows[j].pass
    ensures var s := Exec(steps);
      s.stack == [] ==> var made := Of(s.log, j); First(Whole(s.flows[j].flow), |made| + n) == made
  {
    hide Exec, AtOnce, Of, First;
    ExecPrompt(steps);
    var s := Exec(steps);
    assert Hurries(s.flows, j);
    if s.stack == [] {
      var a := ExecInv(steps);
      forall i | 0 <= i < |s.queue|
        ensures s.queue[i].owner != j
      {
        assert !Hurries(s.flows, s.queue[i].owner);
      }
      NotOwner(s.queue, j);
      Ended(s, a, j, n);
    }
  }

  lemma Ended(s: State, a: Aux, j: nat, n: nat)
    requires Inv(s, a, -1) && j < |s.flows| && s.stack == [] && Owners(s.queue)[j] == 0
    ensures var made := Of(s.log, j); First(Whole(s.flows[j].flow), |made| + n) == made
  {
    hide Of;
    KnowInvTrack(s, a, -1, j);
    assert Busy(s)[j] == 0;
    assert a.rests[j].items == [];
    var made, r := Of(s.log, j), a.rests[j];
    assert First(r, n) == [];
  }
}
