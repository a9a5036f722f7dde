/**
 Competing triggers: what a flow does when some other party triggers one of its nodes, early or
 late.  The first trigger of a node counts, and from there on the flow runs as composed.
 */
module Triggers {
  import opened Wrappers
  import opened Flow

  /** A flow that was built, from node base on. */
  datatype Built = Built(base: nat, flow: Chain)

  predicate IsCall(node: Node) { node.act.Some? && node.act.value.Call? }

  predicate Stored(node: Node) { node.called && node.act.Some? }

  function End(l: Built): nat { l.base + |l.flow.stages| }

  /** Nodes are added, called and given a value once; nothing else about them changes. */
  ghost predicate Grows(nodes: seq<Node>, nodes': seq<Node>) {
    && |nodes| <= |nodes'|
    && forall n | 0 <= n < |nodes| ::
      && nodes'[n].act == nodes[n].act && nodes'[n].owner == nodes[n].owner
      && (nodes[n].called ==> nodes'[n].called && nodes'[n].value == nodes[n].value)
  }

  ghost predicate BuiltOk(nodes: seq<Node>, l: Built) {
    && End(l) < |nodes| && (l.base > 0 ==> !IsCall(nodes[l.base - 1]))
    && (forall k {:trigger l.flow.stages[k]} | 0 <= k < |l.flow.stages| ::
      nodes[l.base + k].act == Some(Call(l.flow.stages[k], l.base + k + 1)))
    && (forall m | l.base <= m <= End(l) :: nodes[m].owner == nodes[l.base].owner)
  }

  ghost predicate Layout(nodes: seq<Node>, built: seq<Built>) {
    && (nodes != [] ==> !IsCall(nodes[|nodes| - 1]))
    && (forall n | 0 <= n < |nodes| && IsCall(nodes[n]) :: CallOk(nodes, n))
    && (forall i | 0 <= i < |built| :: BuiltOk(nodes, built[i]))
    && (forall i, j | 0 <= i < j < |built| :: built[i].base < built[j].base)
  }

  predicate CallOk(nodes: seq<Node>, n: nat)
    requires n < |nodes| && IsCall(nodes[n])
  {
    nodes[n].act.value.next == n + 1 < |nodes| && nodes[n + 1].owner == nodes[n].owner
  }

  function Outcomes(node: Node): Outcome
    requires IsCall(node)
  {
    node.act.value.stage.body(node.value)
  }

  /** The i-th flow built is the one that the stage before node x returned. */
  ghost predicate Nest(nodes: seq<Node>, built: seq<Built>, x: nat, i: int) {
    && 0 <= i < |built| && 0 < x < built[i].base < |nodes| && IsCall(nodes[x - 1]) && nodes[x - 1].called
    && Outcomes(nodes[x - 1]) == Nested(built[i].flow) && nodes[built[i].base].owner == nodes[x - 1].owner
  }

  ghost predicate RelayOk(nodes: seq<Node>, built: seq<Built>, r: nat) {
    r < |nodes| && nodes[r].act.Some? && nodes[r].act.value.Relay? ==>
      exists i :: Nest(nodes, built, nodes[r].act.value.target, i) && r == End(built[i])
  }

  /** What may have passed v to node m: a competing trigger, the flow's submission, the stage before, or a relay. */
  ghost predicate Cause(nodes: seq<Node>, built: seq<Built>, steps: seq<Step>, m: nat, v: Arg) {
    || Poke(m, v) in steps
    || (exists i :: 0 <= i < |built| && built[i].base == m && built[i].flow.init == v)
    || Passes(nodes, m, v)
    || exists r :: Relays(nodes, r, m, v)
  }

  predicate Passes(nodes: seq<Node>, m: nat, v: Arg) {
    && 0 < m <= |nodes| && IsCall(nodes[m - 1]) && nodes[m - 1].called
    && !Outcomes(nodes[m - 1]).Nested? && Outward(Outcomes(nodes[m - 1])) == v
  }

  predicate Relays(nodes: seq<Node>, r: nat, m: nat, v: Arg) {
    r < |nodes| && nodes[r].called && nodes[r].act == Some(Relay(m)) && nodes[r].value == v
  }

  ghost predicate Caused(nodes: seq<Node>, built: seq<Built>, steps: seq<Step>) {
    forall m | 0 <= m < |nodes| && Stored(nodes[m]) :: Cause(nodes, built, steps, m, nodes[m].value)
  }

  ghost predicate TaskOk(nodes: seq<Node>, built: seq<Built>, t: Task) {
    t.n < |nodes| && if t.Start? then Starts(built, t) else Stored(nodes[t.n])
  }

  predicate Starts(built: seq<Built>, t: Task)
    requires t.Start?
  {
    exists i :: 0 <= i < |built| && built[i].base == t.n && built[i].flow.init == t.arg
  }

  ghost predicate TasksOk(nodes: seq<Node>, built: seq<Built>, tasks: seq<Task>) {
    forall t | t in tasks :: TaskOk(nodes, built, t)
  }

  ghost predicate Inv(s: State, built: seq<Built>, steps: seq<Step>) {
    && Layout(s.nodes, built) && (forall r: nat :: RelayOk(s.nodes, built, r)) && Caused(s.nodes, built, steps)
    && TasksOk(s.nodes, built, s.queue) && TasksOk(s.nodes, built, s.stack)
  }

  // ---------------------------------------------------------------- nothing is taken back

  lemma CauseGrows(nodes: seq<Node>, nodes': seq<Node>, built: seq<Built>, built': seq<Built>, steps: seq<Step>,
                   steps': seq<Step>, m: nat, v: Arg)
    requires Cause(nodes, built, steps, m, v) && Grows(nodes, nodes') && built <= built' && steps <= steps'
    ensures Cause(nodes', built', steps', m, v)
  {
    if i :| 0 <= i < |built| && built[i].base == m && built[i].flow.init == v { assert built'[i] == built[i]; }
    if r :| Relays(nodes, r, m, v) { assert Relays(nodes', r, m, v); }
  }

  lemma RelayGrows(nodes: seq<Node>, nodes': seq<Node>, built: seq<Built>, built': seq<Built>, r: nat)
    requires RelayOk(nodes, built, r) && r < |nodes| && Grows(nodes, nodes') && built <= built'
    ensures RelayOk(nodes', built', r)
  {
    if nodes[r].act.Some? && nodes[r].act.value.Relay? {
      var x := nodes[r].act.value.target;
      var i :| Nest(nodes, built, x, i) && r == End(built[i]);
      assert Nest(nodes', built', x, i) && built'[i] == built[i];
    }
  }

  lemma TasksGrow(nodes: seq<Node>, nodes': seq<Node>, built: seq<Built>, built': seq<Built>, tasks: seq<Task>)
    requires TasksOk(nodes, built, tasks) && Grows(nodes, nodes') && built <= built'
    ensures TasksOk(nodes', built', tasks)
  {
    forall t | t in tasks
      ensures TaskOk(nodes', built', t)
    {
      assert TaskOk(nodes, built, t);
      if t.Start? {
        var i :| 0 <= i < |built| && built[i].base == t.n && built[i].flow.init == t.arg;
        assert built'[i] == built[i];
      }
    }
  }

  lemma LayoutSame(nodes: seq<Node>, nodes': seq<Node>, built: seq<Built>)
    requires Layout(nodes, built) && Grows(nodes, nodes') && |nodes'| == |nodes|
    ensures Layout(nodes', built)
  {
    forall i | 0 <= i < |built|
      ensures BuiltOk(nodes', built[i])
    {
      assert BuiltOk(nodes, built[i]);
    }
    forall n | 0 <= n < |nodes'| && IsCall(nodes'[n])
      ensures CallOk(nodes', n)
    {
      assert CallOk(nodes, n);
    }
  }

  // ---------------------------------------------------------------- every step keeps the invariant

  lemma TriggerKeeps(s: State, built: seq<Built>, steps: seq<Step>, n: nat, arg: Arg)
    requires Inv(s, built, steps) && (n < |s.nodes| ==> Cause(s.nodes, built, steps, n, arg))
    ensures Inv(Trigger(s, n, arg), built, steps)
  {
    hide Cause, Layout, RelayOk;
    var s' := Trigger(s, n, arg);
    if n < |s.nodes| && !s.nodes[n].called {
      LayoutSame(s.nodes, s'.nodes, built);
      forall r: nat ensures RelayOk(s'.nodes, built, r) { RelaySame(s.nodes, s'.nodes, built, r); }
      forall m | 0 <= m < |s'.nodes| && Stored(s'.nodes[m])
        ensures Cause(s'.nodes, built, steps, m, s'.nodes[m].value)
      {
        CauseGrows(s.nodes, s'.nodes, built, built, steps, steps, m, s'.nodes[m].value);
      }
      TasksGrow(s.nodes, s'.nodes, built, built, s.queue);
      TasksGrow(s.nodes, s'.nodes, built, built, s.stack);
    }
  }

  lemma RelaySame(nodes: seq<Node>, nodes': seq<Node>, built: seq<Built>, r: nat)
    requires RelayOk(nodes, built, r) && Grows(nodes, nodes') && |nodes'| == |nodes|
    ensures RelayOk(nodes', built, r)
  {
    if r < |nodes| { RelayGrows(nodes, nodes', built, built, r); }
  }

  /** The nodes with those of one more flow behind them. */
  ghost predicate Adds(nodes: seq<Node>, nodes': seq<Node>, l: Built, last: Node) {
    && l.base == |nodes| && |nodes'| == End(l) + 1 && nodes <= nodes' && nodes'[End(l)] == last
    && forall k {:trigger l.flow.stages[k]} | 0 <= k < |l.flow.stages| ::
      nodes'[l.base + k] ==
        Node(false, Some(Call(l.flow.stages[k], l.base + k + 1)), l.flow.stages[k].runner, Mono, last.owner)
  }

  lemma BuildAdds(nodes: seq<Node>, f: Chain, last: Node)
    ensures Adds(nodes, nodes + Build(|nodes|, f.stages, last), Built(|nodes|, f), last)
  {
  }

  lemma LayoutAdds(nodes: seq<Node>, nodes': seq<Node>, built: seq<Built>, l: Built, last: Node)
    requires Layout(nodes, built) && Adds(nodes, nodes', l, last) && !IsCall(last)
    ensures Layout(nodes', built + [l]) && Grows(nodes, nodes')
  {
    assert forall n | 0 <= n < |nodes| :: nodes'[n] == nodes[n];
    forall n | 0 <= n < |nodes'| && IsCall(nodes'[n])
      ensures CallOk(nodes', n)
    {
      if n < |nodes| { assert CallOk(nodes, n); }
        else { NewNode(nodes, nodes', l, last, n); NewNode(nodes, nodes', l, last, n + 1); }
    }
    forall m | l.base <= m <= End(l)
      ensures nodes'[m].owner == last.owner
    {
      NewNode(nodes, nodes', l, last, m);
    }
    forall i | 0 <= i < |built|
      ensures BuiltOk(nodes', built[i])
    {
      assert BuiltOk(nodes, built[i]);
    }
    assert BuiltOk(nodes', l);
  }

  lemma NewNode(nodes: seq<Node>, nodes': seq<Node>, l: Built, last: Node, n: nat)
    requires Adds(nodes, nodes', l, last) && |nodes| <= n < |nodes'|
    ensures nodes'[n].owner == last.owner
    ensures n < End(l) ==> !nodes'[n].called && nodes'[n].act == Some(Call(l.flow.stages[n - l.base], n + 1))
    ensures n == End(l) ==> nodes'[n] == last
  {
    if n < End(l) { assert l.flow.stages[n - l.base] == l.flow.stages[n - l.base]; }
  }

  lemma LaunchKeeps(s: State, built: seq<Built>, steps: seq<Step>, f: Chain, last: Node)
    requires Inv(s, built, steps) && !last.called && !IsCall(last)
    requires last.act.Some? ==>
      var x := last.act.value.target;
      && 0 < x < |s.nodes| && IsCall(s.nodes[x - 1]) && s.nodes[x - 1].called
      && Outcomes(s.nodes[x - 1]) == Nested(f) && s.nodes[x - 1].owner == last.owner
    ensures Inv(Launch(s, f, last), built + [Built(|s.nodes|, f)], steps)
  {
    hide Cause, Layout, BuiltOk, Build;
    var l, nodes', built' := Built(|s.nodes|, f), s.nodes + Build(|s.nodes|, f.stages, last),
      built + [Built(|s.nodes|, f)];
    BuildAdds(s.nodes, f, last);
    LayoutAdds(s.nodes, nodes', built, l, last);
    forall r: nat ensures RelayOk(nodes', built', r) { RelayAdds(s.nodes, nodes', built, l, last, r); }
    forall m | 0 <= m < |nodes'| && Stored(nodes'[m])
      ensures Cause(nodes', built', steps, m, nodes'[m].value)
    {
      if m < |s.nodes| {
        CauseGrows(s.nodes, nodes', built, built', steps, steps, m, nodes'[m].value);
      } else {
        NewNode(s.nodes, nodes', l, last, m);
      }
    }
    TasksGrow(s.nodes, nodes', built, built', s.queue);
    TasksGrow(s.nodes, nodes', built, built', s.stack);
    StartOk(nodes', built, l, last.owner);
  }

  lemma StartOk(nodes: seq<Node>, built: seq<Built>, l: Built, owner: nat)
    requires l.base < |nodes|
    ensures TaskOk(nodes, built + [l], Start(l.base, owner, l.flow.init))
  {
    assert (built + [l])[|built|] == l;
  }

  lemma RelayAdds(nodes: seq<Node>, nodes': seq<Node>, built: seq<Built>, l: Built, last: Node, r: nat)
    requires RelayOk(nodes, built, r) && Adds(nodes, nodes', l, last) && Grows(nodes, nodes')
    requires last.act.Some? && last.act.value.Relay? ==>
      var x := last.act.value.target;
      && 0 < x < |nodes| && IsCall(nodes[x - 1]) && nodes[x - 1].called
      && Outcomes(nodes[x - 1]) == Nested(l.flow) && nodes[x - 1].owner == last.owner
    ensures RelayOk(nodes', built + [l], r)
  {
    if r < |nodes| {
      RelayGrows(nodes, nodes', built, built + [l], r);
    } else if r < |nodes'| {
      NewNode(nodes, nodes', l, last, r);
      NewNode(nodes, nodes', l, last, l.base);
      if r == End(l) && last.act.Some? && last.act.value.Relay? {
        assert Nest(nodes', built + [l], last.act.value.target, |built|);
      }
    }
  }

  /** The flows built once the action of node n has run. */
  function Performed(nodes: seq<Node>, built: seq<Built>, n: nat): seq<Built>
    requires n < |nodes|
  {
    if IsCall(nodes[n]) && Outcomes(nodes[n]).Nested? then built + [Built(|nodes|, Outcomes(nodes[n]).flow)] else built
  }

  lemma PerformKeeps(s: State, built: seq<Built>, steps: seq<Step>, n: nat)
    requires Inv(s, built, steps) && n < |s.nodes| && Stored(s.nodes[n])
    ensures Inv(Perform(s, n), Performed(s.nodes, built, n), steps)
  {
    hide Layout, Trigger, Launch;
    var node, s1 := s.nodes[n], s.(ran := s.ran + [n]);
    assert Inv(s1, built, steps);
    if node.act.value.Relay? {
      assert Relays(s.nodes, n, node.act.value.target, node.value);
      TriggerKeeps(s1, built, steps, node.act.value.target, node.value);
    } else {
      KnowCall(s.nodes, built, n);
      var s2 := s1.(log := s.log + [Event(node.owner, node.act.value.stage.tag, node.value, s.pass)]);
      assert Inv(s2, built, steps);
      var o := Outcomes(node);
      if o.Nested? {
        LaunchKeeps(s2, built, steps, o.flow, Node(false, Some(Relay(n + 1)), o.flow.tail, Mono, node.owner));
      } else {
        assert Passes(s.nodes, n + 1, Outward(o));
        TriggerKeeps(s2, built, steps, n + 1, Outward(o));
      }
    }
  }

  lemma KnowCall(nodes: seq<Node>, built: seq<Built>, n: nat)
    requires Layout(nodes, built) && n < |nodes| && IsCall(nodes[n])
    ensures CallOk(nodes, n)
  {
  }

  function Ran(s: State, built: seq<Built>): seq<Built> {
    if s.stack == [] then built
    else
      var t := s.stack[|s.stack| - 1];
      if t.Start? || t.n >= |s.nodes| then built else Performed(s.nodes, built, t.n)
  }

  lemma RunKeeps(s: State, built: seq<Built>, steps: seq<Step>)
    requires Inv(s, built, steps)
    ensures Inv(Next(s, Run), Ran(s, built), steps)
  {
    hide Layout, Trigger, Perform, RelayOk, Caused;
    if s.stack != [] {
      var t, s1 := s.stack[|s.stack| - 1], s.(stack := s.stack[..|s.stack| - 1]);
      assert TaskOk(s.nodes, built, t);
      assert Inv(s1, built, steps);
      if t.Start? { TriggerKeeps(s1, built, steps, t.n, t.arg); } else { PerformKeeps(s1, built, steps, t.n); }
    }
  }

  lemma MoreSteps(s: State, built: seq<Built>, steps: seq<Step>, step: Step)
    requires Inv(s, built, steps)
    ensures Inv(s, built, steps + [step])
  {
    hide Layout, RelayOk, Cause, TasksOk;
    forall m | 0 <= m < |s.nodes| && Stored(s.nodes[m])
      ensures Cause(s.nodes, built, steps + [step], m, s.nodes[m].value)
    {
      CauseGrows(s.nodes, s.nodes, built, built, steps, steps + [step], m, s.nodes[m].value);
    }
  }

  /** The flows built after one more step. */
  function Stepped(s: State, built: seq<Built>, step: Step): seq<Built> {
    match step
    case Submit(f) => built + [Built(|s.nodes|, f)]
    case Run => Ran(s, built)
    case _ => built
  }

  lemma StepKeeps(s: State, built: seq<Built>, steps: seq<Step>, step: Step)
    requires Inv(s, built, steps)
    ensures Inv(Next(s, step), Stepped(s, built, step), steps + [step])
  {
    hide Layout, Trigger, Launch, RelayOk, Caused, Ran;
    MoreSteps(s, built, steps, step);
    match step
    case Submit(f) =>
      var s1 := s.(flows := s.flows + [Submitted(f, s.pass)]);
      assert Inv(s1, built, steps + [step]);
      LaunchKeeps(s1, built, steps + [step], f, Node(false, None, f.tail, Mono, |s.flows|));
    case Begin =>
    case Pick =>
    case Run => RunKeeps(s, built, steps + [step]);
    case Poke(n, arg) =>
      assert (steps + [step])[|steps|] == Poke(n, arg);
      TriggerKeeps(s, built, steps + [step], n, arg);
  }

  lemma {:induction false} ExecKeeps(steps: seq<Step>) returns (built: seq<Built>)
    ensures Inv(Exec(steps), built, steps) && Progress(Exec(steps), built, -1, -1)
  {
    hide Inv, Next, Stepped, Progress;
    if steps == [] {
      Nothing();
      built := [];
    } else {
      var n := |steps| - 1;
      var s := Exec(steps[..n]);
      built := ExecKeeps(steps[..n]);
      StepKeeps(s, built, steps[..n], steps[n]);
      StepProgress(s, built, steps[..n], steps[n]);
      built := Stepped(s, built, steps[n]);
      assert steps[..n] + [steps[n]] == steps;
    }
  }

  lemma Nothing()
    ensures Inv(Init(), [], []) && Progress(Init(), [], -1, -1)
  {
  }

  // ---------------------------------------------------------------- from a node on

  /** The nodes from n on call these stages, one after the other. */
  ghost predicate Holds(nodes: seq<Node>, n: nat, stages: seq<Stage>) {
    && n + |stages| < |nodes|
    && forall k {:trigger stages[k]} | 0 <= k < |stages| :: nodes[n + k].act == Some(Call(stages[k], n + k + 1))
  }

  /** No competing trigger aims at a node of this submission behind n. */
  ghost predicate Alone(nodes: seq<Node>, steps: seq<Step>, owner: nat, n: nat) {
    forall m: nat, v | Poke(m, v) in steps && m < |nodes| && nodes[m].owner == owner :: m <= n
  }

  ghost predicate Untouched(steps: seq<Step>, lo: int, hi: int) {
    forall m: nat, v | lo < m <= hi :: Poke(m, v) !in steps
  }

  /** Relays lead to nodes behind a stage, and no flow starts there. */
  lemma NotRelayed(s: State, built: seq<Built>, steps: seq<Step>, m: nat)
    requires Inv(s, built, steps) && 0 < m <= |s.nodes| && !IsCall(s.nodes[m - 1])
    ensures forall r, v :: !Relays(s.nodes, r, m, v)
  {
    forall r: nat, v
      ensures !Relays(s.nodes, r, m, v)
    {
      assert RelayOk(s.nodes, built, r);
    }
  }

  lemma NotBase(s: State, built: seq<Built>, steps: seq<Step>, m: nat)
    requires Inv(s, built, steps) && 0 < m <= |s.nodes| && IsCall(s.nodes[m - 1])
    ensures forall i | 0 <= i < |built| :: built[i].base != m
  {
    forall i | 0 <= i < |built|
      ensures built[i].base != m
    {
      assert BuiltOk(s.nodes, built[i]);
    }
  }

  lemma KnowBuilt(s: State, built: seq<Built>, steps: seq<Step>, i: nat)
    requires Inv(s, built, steps) && i < |built|
    ensures BuiltOk(s.nodes, built[i]) && forall j | 0 <= j < |built| && built[j].base == built[i].base :: j == i
  {
  }

  /** The first node of a flow got what the flow was submitted with. */
  lemma BaseValue(s: State, built: seq<Built>, steps: seq<Step>, i: nat)
    requires Inv(s, built, steps) && i < |built| && built[i].base > 0
    requires built[i].base < |s.nodes| && Stored(s.nodes[built[i].base]) &&
      Untouched(steps, built[i].base - 1, built[i].base)
    ensures s.nodes[built[i].base].value == built[i].flow.init
  {
    var m := built[i].base;
    KnowBuilt(s, built, steps, i);
    NotRelayed(s, built, steps, m);
    assert Cause(s.nodes, built, steps, m, s.nodes[m].value);
  }

  /** A node behind a stage that was called got its value from that stage, or from the flow it returned. */
  lemma NextCause(s: State, built: seq<Built>, steps: seq<Step>, m: nat)
    requires Inv(s, built, steps) && 0 < m < |s.nodes| && IsCall(s.nodes[m - 1]) && Stored(s.nodes[m])
    requires Untouched(steps, m - 1, m)
    ensures s.nodes[m - 1].called
    ensures Passes(s.nodes, m, s.nodes[m].value) || exists i :: Returned(s.nodes, built, m, i)
  {
    assert Cause(s.nodes, built, steps, m, s.nodes[m].value);
    NotBase(s, built, steps, m);
    if r :| Relays(s.nodes, r, m, s.nodes[m].value) {
      assert RelayOk(s.nodes, built, r);
      var i :| Nest(s.nodes, built, m, i) && r == End(built[i]);
      assert Returned(s.nodes, built, m, i);
    }
  }

  /** The flow that the stage before m returned has come to its end, and passed its value on. */
  ghost predicate Returned(nodes: seq<Node>, built: seq<Built>, m: nat, i: int) {
    && m < |nodes| && Nest(nodes, built, m, i) && End(built[i]) < |nodes|
    && Stored(nodes[End(built[i])]) && nodes[End(built[i])].value == nodes[m].value
  }

  lemma {:induction false} CalledBefore(s: State, built: seq<Built>, steps: seq<Step>, n: nat, m: nat)
    requires Inv(s, built, steps) && n <= m < |s.nodes| && Stored(s.nodes[m]) && Untouched(steps, n, m)
    requires forall k | n <= k < m :: IsCall(s.nodes[k])
    ensures s.nodes[n].called
  {
    hide Inv;
    if n < m {
      NextCause(s, built, steps, m);
      CalledBefore(s, built, steps, n, m - 1);
    }
  }

  lemma {:induction false} SameOwner(s: State, built: seq<Built>, steps: seq<Step>, n: nat, m: nat)
    requires Inv(s, built, steps) && n <= m < |s.nodes| && forall k | n <= k < m :: IsCall(s.nodes[k])
    ensures s.nodes[m].owner == s.nodes[n].owner
  {
    if n < m {
      SameOwner(s, built, steps, n, m - 1);
      assert CallOk(s.nodes, m - 1);
    }
  }

  lemma AloneUntouched(s: State, built: seq<Built>, steps: seq<Step>, n: nat, bound: nat, stages: seq<Stage>)
    requires Inv(s, built, steps) && Holds(s.nodes, n, stages) && Alone(s.nodes, steps, s.nodes[n].owner, bound)
    requires bound <= n
    ensures Untouched(steps, n, n + |stages|) && (bound < n ==> Untouched(steps, n - 1, n + |stages|))
    ensures forall k | n <= k < n + |stages| :: IsCall(s.nodes[k])
  {
    hide Inv;
    forall k | n <= k < n + |stages|
      ensures IsCall(s.nodes[k])
    {
      assert stages[k - n] == stages[k - n];
    }
    forall m: nat, v | n <= m <= n + |stages| && Poke(m, v) in steps
      ensures m <= bound
    {
      SameOwner(s, built, steps, n, m);
    }
  }

  lemma NestHolds(s: State, built: seq<Built>, steps: seq<Step>, m: nat, i: int)
    requires Inv(s, built, steps) && Nest(s.nodes, built, m, i)
    ensures Holds(s.nodes, built[i].base, built[i].flow.stages) && built[i].base > m
  {
    KnowBuilt(s, built, steps, i);
  }

  /** The value that comes out of a nested flow is that of its composition. */
  lemma {:induction false} NestedValue(s: State, built: seq<Built>, steps: seq<Step>, m: nat, i: int, n: nat,
                                       depth: nat)
    requires Inv(s, built, steps) && Returned(s.nodes, built, m, i) && n < m
    requires Alone(s.nodes, steps, s.nodes[built[i].base].owner, n)
    requires Compose(built[i].flow.stages, built[i].flow.init, depth).Some?
    ensures s.nodes[m].value == Compose(built[i].flow.stages, built[i].flow.init, depth).value.1
    decreases depth, |built[i].flow.stages|, 4
  {
    hide Inv, Compose;
    var l := built[i];
    NestHolds(s, built, steps, m, i);
    AloneUntouched(s, built, steps, l.base, n, l.flow.stages);
    CalledBefore(s, built, steps, l.base, End(l));
    if l.flow.stages != [] { assert IsCall(s.nodes[l.base]); }
    BaseValue(s, built, steps, i);
    Downstream(s, built, steps, l.base, l.flow.stages, depth);
  }

  /** What comes out of one stage: its outcome, or the composition of the flow it returns. */
  function Mid(stage: Stage, arg: Arg, depth: nat): Option<Arg> {
    var o := stage.body(arg);
    if !o.Nested? then Some(Outward(o))
    else if depth == 0 || Compose(o.flow.stages, o.flow.init, depth - 1).None? then None
    else Some(Compose(o.flow.stages, o.flow.init, depth - 1).value.1)
  }

  lemma ComposeStep(stages: seq<Stage>, arg: Arg, depth: nat)
    requires stages != [] && Compose(stages, arg, depth).Some?
    ensures Mid(stages[0], arg, depth).Some? && Compose(stages[1..], Mid(stages[0], arg, depth).value, depth).Some?
    ensures Compose(stages, arg, depth).value.1 == Compose(stages[1..], Mid(stages[0], arg, depth).value, depth).value.1
  {
  }

  lemma {:induction false} StepValue(s: State, built: seq<Built>, steps: seq<Step>, n: nat, stage: Stage, depth: nat)
    requires Inv(s, built, steps) && Holds(s.nodes, n, [stage]) && Stored(s.nodes[n + 1])
    requires Alone(s.nodes, steps, s.nodes[n].owner, n) && Mid(stage, s.nodes[n].value, depth).Some?
    ensures Some(s.nodes[n + 1].value) == Mid(stage, s.nodes[n].value, depth)
    decreases depth, 0, 2
  {
    hide Inv, Compose;
    var m := n + 1;
    HoldsNext(s.nodes, n, [stage]);
    AloneUntouched(s, built, steps, n, n, [stage]);
    SameOwner(s, built, steps, n, m);
    NextCause(s, built, steps, m);
    if !Passes(s.nodes, m, s.nodes[m].value) {
      var i :| Returned(s.nodes, built, m, i);
      NestedValue(s, built, steps, m, i, n, depth - 1);
    }
  }

  /** From a node that was called on, nodes get what the composition from there on says. */
  lemma {:induction false} Downstream(s: State, built: seq<Built>, steps: seq<Step>, n: nat, stages: seq<Stage>,
                                      depth: nat)
    requires Inv(s, built, steps) && Holds(s.nodes, n, stages) && s.nodes[n].called && Stored(s.nodes[n + |stages|])
    requires Alone(s.nodes, steps, s.nodes[n].owner, n) && Compose(stages, s.nodes[n].value, depth).Some?
    ensures s.nodes[n + |stages|].value == Compose(stages, s.nodes[n].value, depth).value.1
    decreases depth, |stages|, 3
  {
    hide Inv;
    if stages != [] {
      var m := n + 1;
      AloneUntouched(s, built, steps, n, n, stages);
      CalledBefore(s, built, steps, m, n + |stages|);
      if |stages| > 1 { assert IsCall(s.nodes[m]); }
      SameOwner(s, built, steps, n, m);
      HoldsNext(s.nodes, n, stages);
      ComposeStep(stages, s.nodes[n].value, depth);
      StepValue(s, built, steps, n, stages[0], depth);
      Downstream(s, built, steps, m, stages[1..], depth);
    }
  }

  lemma HoldsNext(nodes: seq<Node>, n: nat, stages: seq<Stage>)
    requires Holds(nodes, n, stages) && stages != []
    ensures Holds(nodes, n + 1, stages[1..]) && Holds(nodes, n, [stages[0]])
    ensures nodes[n].act == Some(Call(stages[0], n + 1))
  {
    forall k {:trigger stages[1..][k]} | 0 <= k < |stages| - 1
      ensures nodes[n + 1 + k].act == Some(Call(stages[1..][k], n + 1 + k + 1))
    {
      assert stages[1..][k] == stages[k + 1];
    }
    assert stages[0] == stages[0];
  }

  // ---------------------------------------------------------------- what was triggered goes on

  ghost predicate Waits(s: State, start: bool, n: nat) {
    exists t :: (t in s.queue || t in s.stack) && t.Start? == start && t.n == n
  }

  /** The flow that the stage at n returned was built, leads back behind n, and has begun or waits to. */
  ghost predicate Nesting(s: State, built: seq<Built>, n: nat, base: int, i: int) {
    && Nest(s.nodes, built, n + 1, i) && End(built[i]) < |s.nodes| && s.nodes[End(built[i])].act == Some(Relay(n + 1))
    && (s.nodes[built[i].base].called || Waits(s, true, built[i].base) || built[i].base == base)
  }

  /** What the action of node n was to trigger has been triggered. */
  ghost predicate Followed(s: State, built: seq<Built>, n: nat, base: int) {
    && n < |s.nodes| && Stored(s.nodes[n])
    && if !IsCall(s.nodes[n]) then var x := s.nodes[n].act.value.target; x < |s.nodes| && s.nodes[x].called
       else if !Outcomes(s.nodes[n]).Nested? then n + 1 < |s.nodes| && s.nodes[n + 1].called
       else exists i :: Nesting(s, built, n, base, i)
  }

  /** Nothing is stuck, but for what skip's action triggers, and the flow at base, which is about to begin. */
  ghost predicate Progress(s: State, built: seq<Built>, skip: int, base: int) {
    && (forall n | 0 <= n < |s.nodes| && Stored(s.nodes[n]) :: n in s.ran || Waits(s, false, n))
    && (forall n | n in s.ran && n != skip :: Followed(s, built, n, base))
  }

  /** Nodes grow, and no task is lost. */
  ghost predicate Onward(s: State, s': State, built: seq<Built>, built': seq<Built>) {
    && Grows(s.nodes, s'.nodes) && built <= built' && s'.ran == s.ran
    && (forall t | t in s.queue || t in s.stack :: t in s'.queue || t in s'.stack)
  }

  lemma WaitsOn(s: State, s': State, built: seq<Built>, built': seq<Built>, start: bool, n: nat)
    requires Onward(s, s', built, built') && Waits(s, start, n)
    ensures Waits(s', start, n)
  {
    var t :| (t in s.queue || t in s.stack) && t.Start? == start && t.n == n;
    assert t in s'.queue || t in s'.stack;
  }

  lemma FollowedOn(s: State, s': State, built: seq<Built>, built': seq<Built>, n: nat, base: int)
    requires Onward(s, s', built, built') && Followed(s, built, n, base)
    ensures Followed(s', built', n, base)
  {
    hide Waits;
    if IsCall(s.nodes[n]) && Outcomes(s.nodes[n]).Nested? {
      var i :| Nesting(s, built, n, base, i);
      if Waits(s, true, built[i].base) { WaitsOn(s, s', built, built', true, built[i].base); }
      assert built'[i] == built[i];
      assert Nesting(s', built', n, base, i);
    }
  }

  lemma ProgressOn(s: State, s': State, built: seq<Built>, built': seq<Built>, skip: int, base: int)
    requires Progress(s, built, skip, base) && Onward(s, s', built, built')
    requires forall n | 0 <= n < |s'.nodes| && Stored(s'.nodes[n]) && !(n < |s.nodes| && Stored(s.nodes[n])) ::
      Waits(s', false, n)
    ensures Progress(s', built', skip, base)
  {
    hide Waits, Followed, Grows;
    forall n | 0 <= n < |s'.nodes| && Stored(s'.nodes[n])
      ensures n in s'.ran || Waits(s', false, n)
    {
      if n < |s.nodes| && Stored(s.nodes[n]) && n !in s.ran { WaitsOn(s, s', built, built', false, n); }
    }
    forall n | n in s'.ran && n != skip
      ensures Followed(s', built', n, base)
    {
      FollowedOn(s, s', built, built', n, base);
    }
  }

  lemma TriggerProgress(s: State, built: seq<Built>, skip: int, base: int, n: nat, arg: Arg)
    requires Progress(s, built, skip, base)
    ensures Progress(Trigger(s, n, arg), built, skip, base) && Onward(s, Trigger(s, n, arg), built, built)
    ensures n < |s.nodes| ==> |Trigger(s, n, arg).nodes| == |s.nodes| && Trigger(s, n, arg).nodes[n].called
  {
    hide Followed;
    var s' := Trigger(s, n, arg);
    if n < |s.nodes| && !s.nodes[n].called {
      if s.nodes[n].act.Some? {
        var t := Act(n, s.nodes[n].owner);
        assert t in s'.queue || t in s'.stack;
        assert Waits(s', false, n);
      }
      hide Waits;
      ProgressOn(s, s', built, built, skip, base);
    }
  }

  lemma LaunchProgress(s: State, built: seq<Built>, skip: int, base: int, f: Chain, last: Node)
    requires Progress(s, built, skip, base) && !last.called
    ensures var s', built' := Launch(s, f, last), built + [Built(|s.nodes|, f)];
            && Progress(s', built', skip, base) && Onward(s, s', built, built')
            && Waits(s', true, |s.nodes|) && Adds(s.nodes, s'.nodes, Built(|s.nodes|, f), last)
  {
    hide Followed, Build;
    var s', l := Launch(s, f, last), Built(|s.nodes|, f);
    BuildAdds(s.nodes, f, last);
    var t := Start(|s.nodes|, last.owner, f.init);
    assert t in s'.queue || t in s'.stack;
    assert Waits(s', true, |s.nodes|);
    forall n | |s.nodes| <= n < |s'.nodes|
      ensures !s'.nodes[n].called
    {
      NewNode(s.nodes, s'.nodes, l, last, n);
    }
    assert Grows(s.nodes, s'.nodes);
    hide Waits, Adds;
    ProgressOn(s, s', built, built + [l], skip, base);
  }

  /** A task is taken off the stack; if it is an action, it counts as run. */
  lemma PopProgress(s: State, built: seq<Built>, s1: State)
    requires Progress(s, built, -1, -1) && s.stack != []
    requires var t := s.stack[|s.stack| - 1];
      && s1.nodes == s.nodes && s1.queue == s.queue && s1.stack == s.stack[..|s.stack| - 1]
      && s1.ran == if t.Start? then s.ran else s.ran + [t.n]
    ensures var t := s.stack[|s.stack| - 1];
      if t.Start? then Progress(s1, built, -1, t.n) else Progress(s1, built, t.n, -1)
  {
    var t := s.stack[|s.stack| - 1];
    var skip, base := if t.Start? then -1 else t.n, if t.Start? then t.n else -1;
    forall start, n: nat | Waits(s, start, n) && !(start == t.Start? && n == t.n)
      ensures Waits(s1, start, n)
    {
      var u :| (u in s.queue || u in s.stack) && u.Start? == start && u.n == n;
      assert u in s1.queue || u in s1.stack;
    }
    hide Waits, Nest;
    forall n | n in s1.ran && n != skip
      ensures Followed(s1, built, n, base)
    {
      assert Followed(s, built, n, -1);
      if IsCall(s.nodes[n]) && Outcomes(s.nodes[n]).Nested? {
        var i :| Nesting(s, built, n, -1, i);
        assert Nesting(s1, built, n, base, i);
      }
    }
  }

  lemma BaseCalled(s: State, built: seq<Built>, base: nat)
    requires Progress(s, built, -1, base) && base < |s.nodes| && s.nodes[base].called
    ensures Progress(s, built, -1, -1)
  {
    hide Waits;
    forall n | n in s.ran
      ensures Followed(s, built, n, -1)
    {
      assert Followed(s, built, n, base);
      if IsCall(s.nodes[n]) && Outcomes(s.nodes[n]).Nested? {
        var i :| Nesting(s, built, n, base, i);
        assert Nesting(s, built, n, -1, i);
      }
    }
  }

  lemma SkipDone(s: State, built: seq<Built>, skip: nat)
    requires Progress(s, built, skip, -1) && Followed(s, built, skip, -1)
    ensures Progress(s, built, -1, -1)
  {
  }

  lemma Logged(s: State, built: seq<Built>, skip: int, base: int, log: seq<Event>)
    requires Progress(s, built, skip, base)
    ensures Progress(s.(log := log), built, skip, base)
  {
    hide Followed, Waits;
    assert Onward(s, s.(log := log), built, built);
    ProgressOn(s, s.(log := log), built, built, skip, base);
  }

  /** The action of node n, which was just taken off the stack, runs. */
  lemma PerformProgress(s: State, built: seq<Built>, steps: seq<Step>, n: nat)
    requires Inv(s, built, steps) && n < |s.nodes| && Stored(s.nodes[n])
    requires Progress(s.(ran := s.ran + [n]), built, n, -1)
    ensures Progress(Perform(s, n), Performed(s.nodes, built, n), -1, -1)
  {
    hide Inv, Progress, Trigger, Launch, Nest;
    var node, s1 := s.nodes[n], s.(ran := s.ran + [n]);
    if node.act.value.Relay? {
      KnowRelay(s, built, steps, n);
      TriggerProgress(s1, built, n, -1, node.act.value.target, node.value);
    } else {
      KnowNext(s, built, steps, n);
      var log := s.log + [Event(node.owner, node.act.value.stage.tag, node.value, s.pass)];
      var s2, o := s1.(log := log), Outcomes(node);
      Logged(s1, built, n, -1, log);
      if o.Nested? {
        var last := Node(false, Some(Relay(n + 1)), o.flow.tail, Mono, node.owner);
        LaunchProgress(s2, built, n, -1, o.flow, last);
        NewNest(s2, built, n, o.flow, last);
      } else {
        TriggerProgress(s2, built, n, -1, n + 1, Outward(o));
      }
    }
    SkipDone(Perform(s, n), Performed(s.nodes, built, n), n);
  }

  lemma KnowRelay(s: State, built: seq<Built>, steps: seq<Step>, n: nat)
    requires Inv(s, built, steps) && n < |s.nodes| && s.nodes[n].act.Some? && s.nodes[n].act.value.Relay?
    ensures s.nodes[n].act.value.target < |s.nodes|
  {
    assert RelayOk(s.nodes, built, n);
  }

  lemma KnowNext(s: State, built: seq<Built>, steps: seq<Step>, n: nat)
    requires Inv(s, built, steps) && n < |s.nodes| && IsCall(s.nodes[n])
    ensures CallOk(s.nodes, n)
  {
  }

  lemma NewNest(s: State, built: seq<Built>, n: nat, f: Chain, last: Node)
    requires n + 1 < |s.nodes| && IsCall(s.nodes[n]) && Stored(s.nodes[n]) && Outcomes(s.nodes[n]) == Nested(f)
    requires last.act == Some(Relay(n + 1)) && last.owner == s.nodes[n].owner && n in s.ran
    requires var s', l := Launch(s, f, last), Built(|s.nodes|, f);
      Adds(s.nodes, s'.nodes, l, last) && Waits(s', true, l.base) && Grows(s.nodes, s'.nodes)
    ensures Followed(Launch(s, f, last), built + [Built(|s.nodes|, f)], n, -1)
  {
    hide Waits, Build;
    var s', l := Launch(s, f, last), Built(|s.nodes|, f);
    NewNode(s.nodes, s'.nodes, l, last, l.base);
    assert Nesting(s', built + [l], n, -1, |built|);
  }

  lemma RunProgress(s: State, built: seq<Built>, steps: seq<Step>)
    requires Inv(s, built, steps) && Progress(s, built, -1, -1)
    ensures Progress(Next(s, Run), Ran(s, built), -1, -1)
  {
    hide Progress, Trigger, Perform, Layout, RelayOk, Caused;
    if s.stack != [] {
      var t, s1 := s.stack[|s.stack| - 1], s.(stack := s.stack[..|s.stack| - 1]);
      assert TaskOk(s.nodes, built, t);
      if t.Start? {
        PopProgress(s, built, s1);
        TriggerProgress(s1, built, -1, t.n, t.n, t.arg);
        BaseCalled(Trigger(s1, t.n, t.arg), built, t.n);
      } else {
        PopProgress(s, built, s1.(ran := s.ran + [t.n]));
        assert Inv(s1, built, steps);
        PerformProgress(s1, built, steps, t.n);
      }
    }
  }

  lemma StepProgress(s: State, built: seq<Built>, steps: seq<Step>, step: Step)
    requires Inv(s, built, steps) && Progress(s, built, -1, -1)
    ensures Progress(Next(s, step), Stepped(s, built, step), -1, -1)
  {
    hide Inv, Progress, Trigger, Launch, Ran, Followed, Waits;
    match step
    case Submit(f) =>
      var s1 := s.(flows := s.flows + [Submitted(f, s.pass)]);
      assert Onward(s, s1, built, built);
      ProgressSame(s, s1, built);
      LaunchProgress(s1, built, -1, -1, f, Node(false, None, f.tail, Mono, |s.flows|));
    case Begin => ProgressSame(s, Next(s, step), built);
    case Pick =>
      PickOnward(s, built);
      ProgressSame(s, Next(s, step), built);
    case Run => RunProgress(s, built, steps);
    case Poke(n, arg) => TriggerProgress(s, built, -1, -1, n, arg);
  }

  lemma ProgressSame(s: State, s': State, built: seq<Built>)
    requires Progress(s, built, -1, -1) && Onward(s, s', built, built) && s'.nodes == s.nodes
    ensures Progress(s', built, -1, -1)
  {
    hide Followed, Waits;
    ProgressOn(s, s', built, built, -1, -1);
  }

  lemma PickOnward(s: State, built: seq<Built>)
    ensures Onward(s, Next(s, Pick), built, built)
  {
    if s.stack == [] && s.len > 0 && s.queue != [] {
      forall t | t in s.queue
        ensures t in Next(s, Pick).queue || t in Next(s, Pick).stack
      {
        assert s.queue == [s.queue[0]] + s.queue[1..];
      }
    }
  }

  /** Once nothing is waiting, what was called has run through to the end. */
  lemma {:induction false} Reaches(s: State, built: seq<Built>, steps: seq<Step>, n: nat, stages: seq<Stage>,
                                   depth: nat)
    requires Inv(s, built, steps) && Progress(s, built, -1, -1) && Quiet(s) && Holds(s.nodes, n, stages) &&
      s.nodes[n].called
    requires Alone(s.nodes, steps, s.nodes[n].owner, n) && Compose(stages, s.nodes[n].value, depth).Some?
    ensures s.nodes[n + |stages|].called && forall k | n <= k < n + |stages| :: k in s.ran
    decreases depth, |stages|, 0
  {
    hide Inv, Compose, Progress;
    if stages != [] {
      HoldsNext(s.nodes, n, stages);
      ComposeStep(stages, s.nodes[n].value, depth);
      QuietRan(s, built, n);
      var o := Outcomes(s.nodes[n]);
      if o.Nested? {
        var i := QuietNest(s, built, n);
        NestReaches(s, built, steps, n, i, depth - 1);
        QuietRan(s, built, End(built[i]));
      }
      AloneUntouched(s, built, steps, n, n, stages);
      SameOwner(s, built, steps, n, n + 1);
      if |stages| > 1 {
        assert IsCall(s.nodes[n + 1]);
        StepValue(s, built, steps, n, stages[0], depth);
      }
      Trivial(stages[1..], s.nodes[n + 1].value, depth);
      Reaches(s, built, steps, n + 1, stages[1..], depth);
    }
  }

  lemma Trivial(stages: seq<Stage>, arg: Arg, depth: nat)
    ensures stages == [] ==> Compose(stages, arg, depth).Some?
  {
  }

  lemma QuietRan(s: State, built: seq<Built>, n: nat)
    requires Progress(s, built, -1, -1) && Quiet(s) && n < |s.nodes| && Stored(s.nodes[n])
    ensures n in s.ran && Followed(s, built, n, -1)
  {
  }

  lemma QuietNest(s: State, built: seq<Built>, n: nat) returns (i: int)
    requires Followed(s, built, n, -1) && Quiet(s) && IsCall(s.nodes[n]) && Outcomes(s.nodes[n]).Nested?
    ensures Nesting(s, built, n, -1, i) && s.nodes[built[i].base].called
  {
    i :| Nesting(s, built, n, -1, i);
  }

  lemma {:induction false} NestReaches(s: State, built: seq<Built>, steps: seq<Step>, n: nat, i: int, depth: nat)
    requires Inv(s, built, steps) && Progress(s, built, -1, -1) && Quiet(s) && Nesting(s, built, n, -1, i)
    requires s.nodes[built[i].base].called && Alone(s.nodes, steps, s.nodes[n].owner, n)
    requires Compose(built[i].flow.stages, built[i].flow.init, depth).Some?
    ensures s.nodes[End(built[i])].called
    decreases depth, |built[i].flow.stages|, 1
  {
    hide Inv, Compose, Progress;
    var l := built[i];
    NestHolds(s, built, steps, n + 1, i);
    AloneUntouched(s, built, steps, l.base, n, l.flow.stages);
    if l.flow.stages != [] { assert IsCall(s.nodes[l.base]); }
    BaseValue(s, built, steps, i);
    Reaches(s, built, steps, l.base, l.flow.stages, depth);
  }

  // ---------------------------------------------------------------- the first trigger counts

  lemma GrowsStep(s: State, step: Step)
    ensures Grows(s.nodes, Next(s, step).nodes)
  {
    hide Trigger, Launch, Perform, Grows;
    Same(s.nodes);
    match step
    case Submit(f) =>
      LaunchGrows(s.(flows := s.flows + [Submitted(f, s.pass)]), f, Node(false, None, f.tail, Mono, |s.flows|));
    case Run =>
      if s.stack != [] {
        var t, s1 := s.stack[|s.stack| - 1], s.(stack := s.stack[..|s.stack| - 1]);
        TriggerGrows(s1, t.n, if t.Start? then t.arg else Mono);
        if t.n < |s.nodes| { PerformGrows(s1, t.n); }
      }
    case Poke(n, arg) => TriggerGrows(s, n, arg);
    case _ =>
  }

  lemma Same(nodes: seq<Node>)
    ensures Grows(nodes, nodes)
  {
  }

  lemma TriggerGrows(s: State, n: nat, arg: Arg)
    ensures Grows(s.nodes, Trigger(s, n, arg).nodes)
  {
  }

  lemma LaunchGrows(s: State, f: Chain, last: Node)
    ensures Grows(s.nodes, Launch(s, f, last).nodes)
  {
    hide Build;
  }

  lemma PerformGrows(s: State, n: nat)
    requires n < |s.nodes|
    ensures Grows(s.nodes, Perform(s, n).nodes)
  {
    hide Trigger, Launch, Grows;
    Same(s.nodes);
    var node, s1 := s.nodes[n], s.(ran := s.ran + [n]);
    if node.act.Some? {
      if node.act.value.Relay? {
        TriggerGrows(s1, node.act.value.target, node.value);
      } else {
        var o := Outcomes(node);
        var s2 := s1.(log := s.log + [Event(node.owner, node.act.value.stage.tag, node.value, s.pass)]);
        if o.Nested? {
          LaunchGrows(s2, o.flow, Node(false, Some(Relay(node.act.value.next)), o.flow.tail, Mono, node.owner));
        } else {
          TriggerGrows(s2, node.act.value.next, Outward(o));
        }
      }
    }
  }

  lemma {:induction false} ValueStays(steps: seq<Step>, i: nat, n: nat)
    requires i <= |steps| && n < |Exec(steps[..i]).nodes| && Exec(steps[..i]).nodes[n].called
    ensures n < |Exec(steps).nodes| && Exec(steps).nodes[n].called
    ensures Exec(steps).nodes[n].value == Exec(steps[..i]).nodes[n].value
    decreases |steps|
  {
    hide Next;
    if i == |steps| {
      assert steps[..i] == steps;
    } else {
      var k := |steps| - 1;
      assert steps[..k][..i] == steps[..i];
      ValueStays(steps[..k], i, n);
      GrowsStep(Exec(steps[..k]), steps[k]);
    }
  }

  /**
   A competing trigger that reaches a node first, early or not: the node keeps that argument,
   whatever arrives later; the nodes behind it get what the composition of their stages from
   there on says, nested flows included; and once nothing is waiting they have all run.
   */
  lemma FromThereOn(steps: seq<Step>, i: nat, n: nat, arg: Arg, stages: seq<Stage>, depth: nat)
    requires i < |steps| && steps[i] == Poke(n, arg)
    requires var s := Exec(steps[..i]); n < |s.nodes| && !s.nodes[n].called && s.nodes[n].act.Some?
    requires Holds(Exec(steps).nodes, n, stages) && Alone(Exec(steps).nodes, steps, Exec(steps).nodes[n].owner, n)
    requires Compose(stages, arg, depth).Some?
    ensures var s := Exec(steps);
      && s.nodes[n].called && s.nodes[n].value == arg
      && (Stored(s.nodes[n + |stages|]) ==> s.nodes[n + |stages|].value == Compose(stages, arg, depth).value.1)
      && (Quiet(s) ==> s.nodes[n + |stages|].called && forall k | n <= k < n + |stages| :: k in s.ran)
  {
    hide Inv, Progress, Compose;
    var s := Exec(steps);
    assert steps[..i + 1][..i] == steps[..i];
    assert Exec(steps[..i + 1]) == Trigger(Exec(steps[..i]), n, arg);
    ValueStays(steps, i + 1, n);
    var built := ExecKeeps(steps);
    if Stored(s.nodes[n + |stages|]) { Downstream(s, built, steps, n, stages, depth); }
    if Quiet(s) { Reaches(s, built, steps, n, stages, depth); }
  }

  // ---------------------------------------------------------------- the log

  function Item(nodes: seq<Node>, n: nat): seq<(nat, Seen)> {
    if n < |nodes| && IsCall(nodes[n]) then [(nodes[n].owner, Seen(nodes[n].act.value.stage.tag, nodes[n].value))]
      else []
  }

  /** The calls that the nodes made which ran, in that order. */
  function Calls(nodes: seq<Node>, ran: seq<nat>): seq<(nat, Seen)> {
    if ran == [] then [] else Calls(nodes, ran[..|ran| - 1]) + Item(nodes, ran[|ran| - 1])
  }

  function Entries(log: seq<Event>): seq<(nat, Seen)> {
    seq(|log|, i requires 0 <= i < |log| => (log[i].owner, Seen(log[i].tag, log[i].arg)))
  }

  lemma {:induction false} CallsStay(nodes: seq<Node>, nodes': seq<Node>, ran: seq<nat>)
    requires Grows(nodes, nodes') && forall i | 0 <= i < |ran| :: ran[i] < |nodes| && nodes[ran[i]].called
    ensures Calls(nodes', ran) == Calls(nodes, ran)
  {
    if ran != [] { CallsStay(nodes, nodes', ran[..|ran| - 1]); }
  }

  lemma RanCalled(s: State, built: seq<Built>)
    requires Progress(s, built, -1, -1)
    ensures forall i | 0 <= i < |s.ran| :: s.ran[i] < |s.nodes| && s.nodes[s.ran[i]].called
  {
    forall i | 0 <= i < |s.ran|
      ensures s.ran[i] < |s.nodes| && s.nodes[s.ran[i]].called
    {
      assert Followed(s, built, s.ran[i], -1);
    }
  }

  ghost predicate Logs(s: State, s': State, n: nat) {
    && s'.ran == s.ran + [n] && n < |s.nodes| && s.nodes[n].called
    && Entries(s'.log) == Entries(s.log) + Item(s.nodes, n)
  }

  /** What one step adds to the log is what the node that ran calls. */
  lemma StepLogs(s: State, step: Step)
    requires forall t | t in s.stack && t.Act? :: t.n < |s.nodes| && Stored(s.nodes[t.n])
    ensures var s' := Next(s, step); (s'.log == s.log && s'.ran == s.ran) || exists n :: Logs(s, s', n)
  {
    hide Build;
    if step == Run && s.stack != [] && s.stack[|s.stack| - 1].Act? {
      assert s.stack[|s.stack| - 1] in s.stack;
      assert Logs(s, Next(s, step), s.stack[|s.stack| - 1].n);
    }
  }

  /** In every run the log tells the calls of the nodes that ran, each with the argument of its first trigger. */
  lemma {:induction false} LogIsRuns(steps: seq<Step>)
    ensures Entries(Exec(steps).log) == Calls(Exec(steps).nodes, Exec(steps).ran)
  {
    if steps != [] {
      var k := |steps| - 1;
      var s := Exec(steps[..k]);
      LogIsRuns(steps[..k]);
      var built := ExecKeeps(steps[..k]);
      RanCalled(s, built);
      forall t | t in s.stack && t.Act?
        ensures t.n < |s.nodes| && Stored(s.nodes[t.n])
      {
        assert TaskOk(s.nodes, built, t);
      }
      hide Next, Inv, Progress, Calls, Entries;
      StepLogs(s, steps[k]);
      GrowsStep(s, steps[k]);
      CallsStay(s.nodes, Exec(steps).nodes, s.ran);
      CallsMore(s, Next(s, steps[k]));
    }
  }

  lemma CallsMore(s: State, s': State)
    requires Grows(s.nodes, s'.nodes) && Calls(s'.nodes, s.ran) == Entries(s.log)
    requires (s'.log == s.log && s'.ran == s.ran) || exists n :: Logs(s, s', n)
    ensures Calls(s'.nodes, s'.ran) == Entries(s'.log)
  {
    hide Entries;
    if n :| Logs(s, s', n) { assert s'.ran[..|s.ran|] == s.ran; }
  }
}
