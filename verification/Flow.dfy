/**
 Flows: chains of stages joined by one-shot nodes, whose actions are handed either to the
 immediate runner or to the task center.  A stage may return nothing, a value or another
 flow, or throw.
 */
module Flow {
  import opened Wrappers
  import opened Bags

  type Value = int

  /** What a stage is called with: nothing, an exception, or a value. */
  datatype Arg = Mono | Exc(e: Value) | Val(v: Value)

  datatype Runner = Immediate | Center

  datatype Outcome = Nothing | Result(v: Value) | Throw(e: Value) | Nested(flow: Chain)

  datatype Stage = Stage(runner: Runner, tag: nat, body: Arg -> Outcome)

  /** A built flow: where its submission is scheduled, what starts it, its stages, and its runner at the end. */
  datatype Chain = Chain(runner: Runner, init: Arg, stages: seq<Stage>, tail: Runner)

  datatype Action =
    | Call(stage: Stage, next: nat)     // run the stage, pass its outcome to the next node
    | Relay(target: nat)                // end of a nested flow: pass the argument on to the outer flow's node

  /** flow_implent's shared data; owner is the submission it works for. */
  datatype Node = Node(called: bool, act: Option<Action>, runner: Runner, value: Arg, owner: nat)

  /** The closures given to a runner. */
  datatype Task = Start(n: nat, owner: nat, arg: Arg) | Act(n: nat, owner: nat)

  /** A stage was called; pass is the task center's pass it happened in. */
  datatype Event = Event(owner: nat, tag: nat, arg: Arg, pass: nat)

  datatype Submitted = Submitted(flow: Chain, pass: nat)

  datatype State = State(
    nodes: seq<Node>,
    stack: seq<Task>,                   // handed to the immediate runner and not finished, innermost last
    queue: seq<Task>,                   // waiting_tasks
    len: nat,                           // tasks the current pass has still to run
    pass: nat,
    flows: seq<Submitted>,
    log: seq<Event>,
    ran: seq<nat>)                      // nodes whose action was run

  datatype Step =
    | Submit(flow: Chain)
    | Begin                             // the task center's run is called
    | Pick                              // it takes its next task
    | Run                               // the innermost task runs up to the call that ends it
    | Poke(n: nat, arg: Arg)            // some other party triggers node n

  function Init(): State { State([], [], [], 0, 0, [], [], []) }

  function Schedule(s: State, r: Runner, t: Task): State {
    if r == Immediate then s.(stack := s.stack + [t]) else s.(queue := s.queue + [t])
  }

  /** active and trigge: only the first trigger counts. */
  function Trigger(s: State, n: nat, arg: Arg): State {
    if n >= |s.nodes| || s.nodes[n].called then s
    else if s.nodes[n].act.None? then s.(nodes := s.nodes[n := s.nodes[n].(called := true)])
    else Schedule(s.(nodes := s.nodes[n := s.nodes[n].(called := true, value := arg)]), s.nodes[n].runner,
      Act(n, s.nodes[n].owner))
  }

  /** then, stage by stage: one node per stage, and a last one that relays or does nothing. */
  function Build(base: nat, stages: seq<Stage>, last: Node): (r: seq<Node>)
    ensures |r| == |stages| + 1 && r[|stages|] == last
    ensures forall i | 0 <= i < |stages| ::
      r[i] == Node(false, Some(Call(stages[i], base + i + 1)), stages[i].runner, Mono, last.owner)
    decreases |stages|
  {
    if stages == [] then [last] else
      [Node(false, Some(Call(stages[0], base + 1)), stages[0].runner, Mono, last.owner)] +
      Build(base + 1, stages[1..], last)
  }

  /** Builds the flow and submits it. */
  function Launch(s: State, f: Chain, last: Node): State {
    Schedule(s.(nodes := s.nodes + Build(|s.nodes|, f.stages, last)), f.runner, Start(|s.nodes|, last.owner, f.init))
  }

  function Outward(o: Outcome): Arg
    requires !o.Nested?
  {
    match o
    case Nothing => Mono
    case Result(v) => Val(v)
    case Throw(e) => Exc(e)
  }

  /** The action of node n, every exception caught. */
  function Perform(s: State, n: nat): State
    requires n < |s.nodes|
  {
    var node := s.nodes[n];
    match node.act
    case None => s
    case Some(Relay(target)) => Trigger(s.(ran := s.ran + [n]), target, node.value)
    case Some(Call(stage, next)) =>
      var o := stage.body(node.value);
      var s' := s.(log := s.log + [Event(node.owner, stage.tag, node.value, s.pass)], ran := s.ran + [n]);
      if o.Nested? then Launch(s', o.flow, Node(false, Some(Relay(next)), o.flow.tail, Mono, node.owner))
      else Trigger(s', next, Outward(o))
  }

  function Next(s: State, a: Step): State {
    match a
    case Submit(f) =>
      Launch(s.(flows := s.flows + [Submitted(f, s.pass)]), f, Node(false, None, f.tail, Mono, |s.flows|))
    case Begin => if s.stack == [] && s.len == 0 then s.(len := |s.queue|, pass := s.pass + 1) else s
    case Pick =>
      if s.stack == [] && s.len > 0 && s.queue != []
      then s.(stack := [s.queue[0]], queue := s.queue[1..], len := s.len - 1) else s
    case Run =>
      if s.stack == [] then s
      else
        var t := s.stack[|s.stack| - 1];
        var s' := s.(stack := s.stack[..|s.stack| - 1]);
        if t.n >= |s.nodes| then s' else if t.Start? then Trigger(s', t.n, t.arg) else Perform(s', t.n)
    case Poke(n, arg) => Trigger(s, n, arg)
  }

  function Exec(steps: seq<Step>): State {
    if steps == [] then Init() else Next(Exec(steps[..|steps| - 1]), steps[|steps| - 1])
  }

  // ---------------------------------------------------------------- each action runs at most once

  /** The nodes whose action is waiting to run. */
  ghost function Waiting(tasks: seq<Task>): multiset<nat> {
    if tasks == [] then multiset{}
    else Waiting(tasks[..|tasks| - 1]) + (if tasks[|tasks| - 1].Act? then multiset{tasks[|tasks| - 1].n}
      else multiset{})
  }

  /** The nodes whose action was run, or is waiting in the queue or on the stack. */
  ghost function Claims(s: State): multiset<nat> { multiset(s.ran) + Waiting(s.queue) + Waiting(s.stack) }

  ghost predicate Once(claims: multiset<nat>, nodes: seq<Node>) {
    forall n :: claims[n] <= 1 && (claims[n] == 1 ==> n < |nodes| && nodes[n].called)
  }

  ghost predicate OnceInv(s: State) { Once(Claims(s), s.nodes) }

  lemma WaitingPush(tasks: seq<Task>, t: Task)
    ensures Waiting(tasks + [t]) == Waiting(tasks) + (if t.Act? then multiset{t.n} else multiset{})
  {
    assert (tasks + [t])[..|tasks|] == tasks;
  }

  lemma {:induction false} WaitingPop(tasks: seq<Task>)
    requires tasks != []
    ensures Waiting(tasks) == (if tasks[0].Act? then multiset{tasks[0].n} else multiset{}) + Waiting(tasks[1..])
  {
    if |tasks| > 1 {
      var init, first, last := tasks[..|tasks| - 1], tasks[0], tasks[|tasks| - 1];
      WaitingPop(init);
      assert init[1..] == tasks[1..][..|tasks| - 2];
      Associate(if first.Act? then multiset{first.n} else multiset{}, Waiting(init[1..]),
                if last.Act? then multiset{last.n} else multiset{});
    } else {
      assert tasks[..0] == [] == tasks[1..];
    }
  }

  lemma OnceTrigger(s: State, n: nat, arg: Arg)
    requires OnceInv(s)
    ensures OnceInv(Trigger(s, n, arg))
  {
    hide Once, Waiting;
    var s' := Trigger(s, n, arg);
    if n < |s.nodes| && !s.nodes[n].called {
      OnceCalled(Claims(s), s.nodes, s'.nodes, n);
      if s.nodes[n].act.Some? {
        WaitingPush(s.stack, Act(n, s.nodes[n].owner));
        WaitingPush(s.queue, Act(n, s.nodes[n].owner));
        Regroup(multiset(s.ran), Waiting(s.queue), Waiting(s.stack), multiset{n});
      }
    }
  }

  lemma Regroup(a: multiset<nat>, b: multiset<nat>, c: multiset<nat>, d: multiset<nat>)
    ensures a + b + (c + d) == a + b + c + d
    ensures a + (b + d) + c == a + b + c + d
    ensures (a + d) + b + c == a + b + c + d
  {
  }

  lemma OnceCalled(claims: multiset<nat>, nodes: seq<Node>, nodes': seq<Node>, n: nat)
    requires Once(claims, nodes) && n < |nodes| == |nodes'| && !nodes[n].called && nodes'[n].called
    requires nodes' == nodes[n := nodes'[n]]
    ensures Once(claims, nodes') && Once(claims + multiset{n}, nodes')
  {
  }

  lemma OnceLaunch(s: State, f: Chain, last: Node)
    requires OnceInv(s)
    ensures OnceInv(Launch(s, f, last))
  {
    WaitingPush(s.stack, Start(|s.nodes|, last.owner, f.init));
    WaitingPush(s.queue, Start(|s.nodes|, last.owner, f.init));
    assert Claims(Launch(s, f, last)) == Claims(s);
  }

  lemma OnceRun(s: State)
    requires OnceInv(s)
    ensures OnceInv(Next(s, Run))
  {
    hide Once, Waiting, Perform, Trigger;
    if s.stack != [] {
      var t := s.stack[|s.stack| - 1];
      var n, s' := t.n, s.(stack := s.stack[..|s.stack| - 1]);
      var d := if t.Act? then multiset{n} else multiset{};
      WaitingPush(s'.stack, t);
      assert s.stack == s'.stack + [t];
      Regroup(multiset(s.ran), Waiting(s.queue), Waiting(s'.stack), d);
      OnceLess(Claims(s), Claims(s'), s.nodes);
      if n < |s.nodes| {
        if t.Start? { OnceTrigger(s', n, t.arg); } else { OncePerform(s', n); }
      }
    }
  }

  lemma OnceLess(claims: multiset<nat>, claims': multiset<nat>, nodes: seq<Node>)
    requires Once(claims, nodes) && claims' <= claims
    ensures Once(claims', nodes)
  {
    assert forall n :: claims'[n] <= claims[n];
  }

  lemma OncePerform(s: State, n: nat)
    requires n < |s.nodes| && OnceInv(s) && Once(Claims(s) + multiset{n}, s.nodes)
    ensures OnceInv(Perform(s, n))
  {
    hide Once, Waiting, Trigger, Launch;
    var node := s.nodes[n];
    if node.act.Some? {
      var r := s.(ran := s.ran + [n]);
      assert multiset(s.ran + [n]) == multiset(s.ran) + multiset{n};
      Regroup(multiset(s.ran), Waiting(s.queue), Waiting(s.stack), multiset{n});
      if node.act.value.Relay? {
        OnceTrigger(r, node.act.value.target, node.value);
      } else {
        var o := node.act.value.stage.body(node.value);
        var r' := r.(log := s.log + [Event(node.owner, node.act.value.stage.tag, node.value, s.pass)]);
        assert Claims(r') == Claims(r);
        if o.Nested? {
          OnceLaunch(r', o.flow, Node(false, Some(Relay(node.act.value.next)), o.flow.tail, Mono, node.owner));
        } else {
          OnceTrigger(r', node.act.value.next, Outward(o));
        }
      }
    }
  }

  lemma OnceInit()
    ensures OnceInv(Init())
  {
  }

  lemma OncePick(s: State)
    requires OnceInv(s)
    ensures OnceInv(Next(s, Pick))
  {
    hide Once, Waiting;
    if s.stack == [] && s.len > 0 && s.queue != [] {
      var t := s.queue[0];
      var d := if t.Act? then multiset{t.n} else multiset{};
      WaitingPop(s.queue);
      WaitingOne(t);
      Reseat(multiset(s.ran), Waiting(s.queue[1..]), d);
    }
  }

  lemma WaitingOne(t: Task)
    ensures Waiting([t]) == (if t.Act? then multiset{t.n} else multiset{}) && Waiting([]) == multiset{}
  {
    assert [t][..0] == [];
  }

  lemma Reseat(a: multiset<nat>, b: multiset<nat>, c: multiset<nat>)
    ensures a + (c + b) + multiset{} == a + b + c
  {
  }

  lemma {:induction false} ExecOnce(steps: seq<Step>)
    ensures OnceInv(Exec(steps))
  {
    hide Once, Waiting;
    if steps == [] {
      OnceInit();
    } else {
      ExecOnce(steps[..|steps| - 1]);
      var s, a := Exec(steps[..|steps| - 1]), steps[|steps| - 1];
      match a
      case Submit(f) =>
        var s' := s.(flows := s.flows + [Submitted(f, s.pass)]);
        assert Claims(s') == Claims(s);
        OnceLaunch(s', f, Node(false, None, f.tail, Mono, |s.flows|));
      case Begin => assert Claims(Next(s, a)) == Claims(s);
      case Pick => OncePick(s);
      case Run => OnceRun(s);
      case Poke(n, arg) => OnceTrigger(s, n, arg);
    }
  }

  lemma {:induction false} CountTwo(s: seq<nat>, i: nat, j: nat)
    requires i < j < |s| && s[i] == s[j]
    ensures multiset(s)[s[i]] >= 2
  {
    assert s == s[..j] + [s[j]] + s[j + 1..];
    assert s[..j][i] == s[i];
  }

  /** However many competing triggers arrive, from whomever and whenever, no node's action runs twice. */
  lemma AtMostOnce(steps: seq<Step>)
    ensures var ran := Exec(steps).ran; forall i, j | 0 <= i < j < |ran| :: ran[i] != ran[j]
  {
    ExecOnce(steps);
    var s := Exec(steps);
    forall i, j | 0 <= i < j < |s.ran|
      ensures s.ran[i] != s.ran[j]
    {
      assert Claims(s)[s.ran[i]] <= 1;
      if s.ran[i] == s.ran[j] { CountTwo(s.ran, i, j); }
    }
  }

  // ---------------------------------------------------------------- what a flow means

  datatype Seen = Seen(tag: nat, arg: Arg)

  /**
   Left-to-right composition: the calls a chain of stages makes, and the argument that comes
   out at its end; a nested flow stands for its own composition.  None when flows are nested
   deeper than depth.
   */
  function Compose(stages: seq<Stage>, arg: Arg, depth: nat): Option<(seq<Seen>, Arg)>
    decreases depth, |stages|
  {
    if stages == [] then Some(([], arg))
    else
      var o := stages[0].body(arg);
      var mid :=
        if !o.Nested? then Some(([], Outward(o)))
        else if depth == 0 then None
        else Compose(o.flow.stages, o.flow.init, depth - 1);
      if mid.None? then None
      else
        var rest := Compose(stages[1..], mid.value.1, depth);
        if rest.None? then None
        else Some(([Seen(stages[0].tag, arg)] + mid.value.0 + rest.value.0, rest.value.1))
  }

  /** What is left to do, with the ends of nested flows spliced in. */
  datatype Item = Do(stage: Stage) | Pass(runner: Runner)

  datatype Rest = Rest(items: seq<Item>, arg: Arg)

  function Dos(stages: seq<Stage>): (r: seq<Item>)
    ensures |r| == |stages| && forall i | 0 <= i < |r| :: r[i] == Do(stages[i])
  {
    seq(|stages|, i requires 0 <= i < |stages| => Do(stages[i]))
  }

  /** The calls left to make, if there are at most fuel of them. */
  function Mean(items: seq<Item>, arg: Arg, fuel: nat): Option<seq<Seen>>
    decreases fuel, |items|
  {
    if items == [] then Some([])
    else if items[0].Pass? then Mean(items[1..], arg, fuel)
    else if fuel == 0 then None
    else
      var r := After(items, arg);
      var rest := Mean(r.items, r.arg, fuel - 1);
      if rest.None? then None else Some([Seen(items[0].stage.tag, arg)] + rest.value)
  }

  /** What is left when the first stage has returned. */
  function After(items: seq<Item>, arg: Arg): Rest
    requires items != [] && items[0].Do?
  {
    var o := items[0].stage.body(arg);
    if o.Nested? then Rest(Dos(o.flow.stages) + [Pass(o.flow.tail)] + items[1..], o.flow.init)
    else Rest(items[1..], Outward(o))
  }

  /** The first n calls left to make, or all of them if they are fewer; a flow need not end. */
  function First(r: Rest, n: nat): seq<Seen>
    decreases n, |r.items|
  {
    if n == 0 || r.items == [] then []
    else if r.items[0].Pass? then First(Rest(r.items[1..], r.arg), n)
    else [Seen(r.items[0].stage.tag, r.arg)] + First(After(r.items, r.arg), n - 1)
  }

  function Whole(f: Chain): Rest { Rest(Dos(f.stages), f.init) }

  lemma MeanStep(items: seq<Item>, arg: Arg, fuel: nat)
    requires items != [] && items[0].Do?
    requires var r := After(items, arg); Mean(r.items, r.arg, fuel).Some?
    ensures var r := After(items, arg);
            Mean(items, arg, fuel + 1) == Some([Seen(items[0].stage.tag, arg)] + Mean(r.items, r.arg, fuel).value)
  {
  }

  lemma MeanPass(r: Runner, items: seq<Item>, arg: Arg, fuel: nat)
    ensures Mean([Pass(r)] + items, arg, fuel) == Mean(items, arg, fuel)
  {
    assert ([Pass(r)] + items)[1..] == items;
  }

  lemma Concat(a: seq<Seen>, b: seq<Seen>, c: seq<Seen>, d: seq<Seen>)
    ensures a + b + c + d == a + (b + (c + d)) && (b == [] ==> a + b + c + d == a + (c + d))
  {
  }

  /** What is left when the first item has been carried out. */
  function Forward(r: Rest): Rest
    requires r.items != []
  {
    if r.items[0].Pass? then Rest(r.items[1..], r.arg) else After(r.items, r.arg)
  }

  /** Splicing nested flows in keeps the meaning. */
  lemma {:induction false} SpliceMeans(stages: seq<Stage>, arg: Arg, depth: nat, rest: seq<Item>, fuel: nat)
    requires Compose(stages, arg, depth).Some? && Mean(rest, Compose(stages, arg, depth).value.1, fuel).Some?
    ensures var (calls, out) := Compose(stages, arg, depth).value;
            Mean(Dos(stages) + rest, arg, |calls| + fuel) == Some(calls + Mean(rest, out, fuel).value)
    decreases depth, |stages|
  {
    hide Mean, Dos;
    var (calls, out) := Compose(stages, arg, depth).value;
    var items, last := Dos(stages) + rest, Mean(rest, out, fuel).value;
    if stages == [] {
      assert items == rest && calls + last == last;
    } else {
      var o, first := stages[0].body(arg), [Seen(stages[0].tag, arg)];
      var tail := Dos(stages[1..]) + rest;
      assert items[1..] == tail && items[0] == Do(stages[0]);
      if o.Nested? {
        var (inner, mid) := Compose(o.flow.stages, o.flow.init, depth - 1).value;
        var (outer, _) := Compose(stages[1..], mid, depth).value;
        SpliceMeans(stages[1..], mid, depth, rest, fuel);
        var passed := [Pass(o.flow.tail)] + tail;
        MeanPass(o.flow.tail, tail, mid, |outer| + fuel);
        SpliceMeans(o.flow.stages, o.flow.init, depth - 1, passed, |outer| + fuel);
        assert Dos(o.flow.stages) + passed == Dos(o.flow.stages) + [Pass(o.flow.tail)] + tail;
        MeanStep(items, arg, |inner| + (|outer| + fuel));
        Concat(first, inner, outer, last);
      } else {
        SpliceMeans(stages[1..], Outward(o), depth, rest, fuel);
        var (outer, _) := Compose(stages[1..], Outward(o), depth).value;
        MeanStep(items, arg, |outer| + fuel);
        Concat(first, [], outer, last);
      }
    }
  }

  /** A flow's composition is what its stages, run one by one, will call. */
  lemma ComposeMeans(f: Chain, depth: nat)
    requires Compose(f.stages, f.init, depth).Some?
    ensures var calls := Compose(f.stages, f.init, depth).value.0;
            Mean(Dos(f.stages), f.init, |calls|) == Some(calls)
  {
    var none: seq<Item> := [];
    SpliceMeans(f.stages, f.init, depth, none, 0);
    assert Dos(f.stages) + none == Dos(f.stages);
    var calls := Compose(f.stages, f.init, depth).value.0;
    assert calls + [] == calls;
  }

  // ---------------------------------------------------------------- every run follows the meaning

  /** For each submission: what is left of it, and the nodes its argument has still to pass through. */
  datatype Aux = Aux(rests: seq<Rest>, paths: seq<seq<nat>>)

  ghost predicate Distinct(s: seq<nat>) { forall i, j | 0 <= i < j < |s| :: s[i] != s[j] }

  ghost predicate Fits(node: Node, item: Item, next: nat) {
    match item
    case Do(stage) => node.act == Some(Call(stage, next)) && node.runner == stage.runner
    case Pass(r) => node.act == Some(Relay(next)) && node.runner == r
  }

  /** The nodes of path, all but the first untouched, carry out items in this order. */
  ghost predicate Carries(nodes: seq<Node>, j: nat, path: seq<nat>, items: seq<Item>) {
    && |path| == |items| + 1 && Distinct(path)
    && (forall i | 0 <= i < |path| :: path[i] < |nodes| && nodes[path[i]].owner == j)
    && (forall i {:trigger items[i]} | 0 <= i < |items| :: Fits(nodes[path[i]], items[i], path[i + 1]))
    && nodes[path[|items|]].act.None?
    && (forall i | 0 < i < |path| :: !nodes[path[i]].called)
  }

  ghost predicate TaskOk(nodes: seq<Node>, a: Aux, t: Task) {
    && t.owner < |a.rests| == |a.paths|
    && var r, path := a.rests[t.owner], a.paths[t.owner];
    && Carries(nodes, t.owner, path, r.items) && t.n == path[0]
    && (t.Start? ==> !nodes[t.n].called && t.arg == r.arg)
    && (t.Act? ==> nodes[t.n].called && nodes[t.n].value == r.arg && r.items != [])
  }

  ghost predicate TasksOk(nodes: seq<Node>, a: Aux, tasks: seq<Task>) {
    forall i | 0 <= i < |tasks| :: TaskOk(nodes, a, tasks[i])
  }

  ghost function Owners(tasks: seq<Task>): multiset<nat> {
    if tasks == [] then multiset{} else Owners(tasks[..|tasks| - 1]) + multiset{tasks[|tasks| - 1].owner}
  }

  ghost function Busy(s: State): multiset<nat> { Owners(s.queue) + Owners(s.stack) }

  /** The calls made for submission j. */
  function Of(log: seq<Event>, j: nat): seq<Seen> {
    if log == [] then []
    else
      var e := log[|log| - 1];
      Of(log[..|log| - 1], j) + (if e.owner == j then [Seen(e.tag, e.arg)] else [])
  }

  /** Calls made and calls left make up the meaning. */
  ghost predicate OnTrack(f: Chain, made: seq<Seen>, r: Rest) {
    && (forall n: nat {:trigger First(r, n)} :: First(Whole(f), |made| + n) == made + First(r, n))
    && (forall fuel: nat | Mean(Dos(f.stages), f.init, fuel).Some? ::
      var all := Mean(Dos(f.stages), f.init, fuel).value;
      made <= all && |made| <= fuel && Mean(r.items, r.arg, fuel - |made|) == Some(all[|made|..]))
  }

  ghost predicate AllOnTrack(flows: seq<Submitted>, log: seq<Event>, rests: seq<Rest>) {
    && |rests| == |flows| && (forall j | 0 <= j < |flows| :: OnTrack(flows[j].flow, Of(log, j), rests[j]))
    && (forall i | 0 <= i < |log| :: log[i].owner < |flows|)
  }

  /** A submission with anything left has exactly one task, except fid, which has none for the moment. */
  ghost predicate Threads(busy: multiset<nat>, rests: seq<Rest>, fid: int) {
    && (forall j: nat :: busy[j] <= 1 && (j == fid || j >= |rests| ==> busy[j] == 0))
    && (forall j: nat | j < |rests| && j != fid && rests[j].items != [] :: busy[j] == 1)
  }

  /** fid == -1 when every submission is in order. */
  ghost predicate Inv(s: State, a: Aux, fid: int) {
    && |a.paths| == |a.rests| && TasksOk(s.nodes, a, s.queue) && TasksOk(s.nodes, a, s.stack)
    && AllOnTrack(s.flows, s.log, a.rests) && Threads(Busy(s), a.rests, fid)
  }

  lemma OwnersPush(tasks: seq<Task>, t: Task)
    ensures Owners(tasks + [t]) == Owners(tasks) + multiset{t.owner}
  {
    assert (tasks + [t])[..|tasks|] == tasks;
  }

  lemma {:induction false} OwnersPop(tasks: seq<Task>)
    requires tasks != []
    ensures Owners(tasks) == multiset{tasks[0].owner} + Owners(tasks[1..])
  {
    if |tasks| > 1 {
      var init, last := tasks[..|tasks| - 1], multiset{tasks[|tasks| - 1].owner};
      OwnersPop(init);
      assert init[1..] == tasks[1..][..|tasks| - 2];
      Associate(multiset{tasks[0].owner}, Owners(init[1..]), last);
    } else {
      assert tasks[..0] == [] == tasks[1..];
    }
  }

  lemma {:induction false} OwnersHas(tasks: seq<Task>, i: nat)
    requires i < |tasks|
    ensures Owners(tasks)[tasks[i].owner] >= 1
  {
    if i < |tasks| - 1 { OwnersHas(tasks[..|tasks| - 1], i); }
  }

  /** The task about to run is set aside. */
  lemma TakeTop(s: State, a: Aux) returns (s': State)
    requires Inv(s, a, -1) && s.stack != []
    ensures s' == s.(stack := s.stack[..|s.stack| - 1])
    ensures var t := s.stack[|s.stack| - 1]; TaskOk(s.nodes, a, t) && Inv(s', a, t.owner)
  {
    hide TaskOk, AllOnTrack;
    var t := s.stack[|s.stack| - 1];
    s' := s.(stack := s.stack[..|s.stack| - 1]);
    assert Busy(s) == Busy(s') + multiset{t.owner};
    ThreadsLess(Busy(s), Busy(s'), a.rests, t.owner);
  }

  lemma ThreadsLess(busy: multiset<nat>, busy': multiset<nat>, rests: seq<Rest>, j: nat)
    requires Threads(busy, rests, -1) && busy == busy' + multiset{j}
    ensures Threads(busy', rests, j)
  {
    assert forall i :: busy[i] == busy'[i] + multiset{j}[i];
  }

  lemma ThreadsMore(busy: multiset<nat>, rests: seq<Rest>, j: nat)
    requires Threads(busy, rests, j) && j < |rests|
    ensures Threads(busy + multiset{j}, rests, -1)
  {
  }

  /** A submission's next task is scheduled. */
  lemma Park(s: State, a: Aux, r: Runner, t: Task)
    requires Inv(s, a, t.owner) && TaskOk(s.nodes, a, t)
    ensures Inv(Schedule(s, r, t), a, -1)
  {
    hide TaskOk, AllOnTrack, Threads, Owners;
    OwnersPush(s.stack, t);
    OwnersPush(s.queue, t);
    KnowOwner(s.nodes, a, t);
    ThreadsMore(Busy(s), a.rests, t.owner);
    assert Busy(Schedule(s, r, t)) == Busy(s) + multiset{t.owner};
  }

  lemma KnowOwner(nodes: seq<Node>, a: Aux, t: Task)
    requires TaskOk(nodes, a, t)
    ensures t.owner < |a.rests| == |a.paths|
  {
  }

  /** A submission has come to its end. */
  lemma Finish(s: State, a: Aux, j: nat)
    requires Inv(s, a, j) && j < |a.rests| && a.rests[j].items == []
    ensures Inv(s, a, -1)
  {
  }

  /** Submission j changes its own nodes and what is left of it. */
  lemma Change(s: State, s': State, a: Aux, a': Aux, j: nat)
    requires Inv(s, a, j) && j < |a.rests| && |s.nodes| <= |s'.nodes|
    requires s' == s.(nodes := s'.nodes, log := s'.log, ran := s'.ran)
    requires forall n | 0 <= n < |s.nodes| && s.nodes[n].owner != j :: s'.nodes[n] == s.nodes[n]
    requires |a'.rests| == |a'.paths| == |a.rests|
    requires forall i | 0 <= i < |a.rests| && i != j ::
               a'.rests[i] == a.rests[i] && a'.paths[i] == a.paths[i] && Of(s'.log, i) == Of(s.log, i)
    requires OnTrack(s.flows[j].flow, Of(s'.log, j), a'.rests[j]) &&
      forall i | 0 <= i < |s'.log| :: s'.log[i].owner < |s.flows|
    ensures Inv(s', a', j)
  {
    hide OnTrack, Owners, Threads, TaskOk, TasksOk, Of;
    NotBusy(Owners(s.queue), Owners(s.stack), a.rests, j);
    ThreadsSame(Busy(s), a.rests, a'.rests, j);
    TasksSame(s, s', a, a', j, s.queue);
    TasksSame(s, s', a, a', j, s.stack);
  }

  lemma NotBusy(queue: multiset<nat>, stack: multiset<nat>, rests: seq<Rest>, j: nat)
    requires Threads(queue + stack, rests, j)
    ensures queue[j] == 0 && stack[j] == 0
  {
    assert (queue + stack)[j] == 0;
  }

  lemma ThreadsSame(busy: multiset<nat>, rests: seq<Rest>, rests': seq<Rest>, j: nat)
    requires Threads(busy, rests, j) && |rests'| == |rests| &&
      forall i | 0 <= i < |rests| && i != j :: rests'[i] == rests[i]
    ensures Threads(busy, rests', j)
  {
  }

  lemma TasksSame(s: State, s': State, a: Aux, a': Aux, j: nat, tasks: seq<Task>)
    requires TasksOk(s.nodes, a, tasks) && Owners(tasks)[j] == 0 && |s.nodes| <= |s'.nodes|
    requires forall n | 0 <= n < |s.nodes| && s.nodes[n].owner != j :: s'.nodes[n] == s.nodes[n]
    requires |a'.rests| == |a'.paths| == |a.rests| == |a.paths|
    requires forall i | 0 <= i < |a.rests| && i != j :: a'.rests[i] == a.rests[i] && a'.paths[i] == a.paths[i]
    ensures TasksOk(s'.nodes, a', tasks)
  {
    hide Owners;
    forall i | 0 <= i < |tasks|
      ensures TaskOk(s'.nodes, a', tasks[i])
    {
      OwnersHas(tasks, i);
      assert TaskOk(s.nodes, a, tasks[i]);
      CarriesSame(s.nodes, s'.nodes, tasks[i].owner, a.paths[tasks[i].owner], a.rests[tasks[i].owner].items);
    }
  }

  lemma CarriesSame(nodes: seq<Node>, nodes': seq<Node>, j: nat, path: seq<nat>, items: seq<Item>)
    requires Carries(nodes, j, path, items) && |nodes| <= |nodes'|
    requires forall i | 0 <= i < |path| :: nodes'[path[i]] == nodes[path[i]]
    ensures Carries(nodes', j, path, items)
  {
  }

  /** The argument reaches the first node of a submission's path, which nobody has triggered. */
  lemma Arrive(s: State, a: Aux, j: nat) returns (a': Aux)
    requires Inv(s, a, j) && j < |a.rests| && Carries(s.nodes, j, a.paths[j], a.rests[j].items)
    requires !s.nodes[a.paths[j][0]].called
    ensures Inv(Trigger(s, a.paths[j][0], a.rests[j].arg), a, -1) && a' == a
  {
    a' := a;
    var n, items, arg := a.paths[j][0], a.rests[j].items, a.rests[j].arg;
    var node := s.nodes[n];
    if items == [] {
      var s' := s.(nodes := s.nodes[n := node.(called := true)]);
      hide OnTrack, Threads, TaskOk, Mean, Of;
      KnowTrack(s.flows, s.log, a.rests, j);
      Change(s, s', a, a, j);
      Finish(s', a, j);
      assert Trigger(s, n, arg) == s';
    } else {
      var s' := s.(nodes := s.nodes[n := node.(called := true, value := arg)]);
      var t := Act(n, j);
      assert Fits(node, items[0], a.paths[j][1]);
      assert TaskOk(s'.nodes, a, t) by { CarriesCalled(s.nodes, s'.nodes, j, a.paths[j], items); }
      hide OnTrack, Threads, TaskOk, Mean, Of, Carries;
      KnowTrack(s.flows, s.log, a.rests, j);
      Change(s, s', a, a, j);
      Park(s', a, node.runner, t);
    }
  }

  lemma CarriesCalled(nodes: seq<Node>, nodes': seq<Node>, j: nat, path: seq<nat>, items: seq<Item>)
    requires Carries(nodes, j, path, items) && |nodes| == |nodes'|
    requires forall n | 0 <= n < |nodes| && n != path[0] :: nodes'[n] == nodes[n]
    requires var m, m' := nodes[path[0]], nodes'[path[0]];
      m'.act == m.act && m'.owner == m.owner && m'.runner == m.runner
    ensures Carries(nodes', j, path, items)
  {
  }

  lemma KnowTrack(flows: seq<Submitted>, log: seq<Event>, rests: seq<Rest>, j: nat)
    requires AllOnTrack(flows, log, rests) && j < |rests|
    ensures j < |flows| == |rests| && OnTrack(flows[j].flow, Of(log, j), rests[j])
    ensures forall i | 0 <= i < |log| :: log[i].owner < |flows|
  {
  }

  lemma CarriesTail(nodes: seq<Node>, j: nat, path: seq<nat>, items: seq<Item>)
    requires Carries(nodes, j, path, items) && items != []
    ensures Carries(nodes, j, path[1..], items[1..]) && !nodes[path[1]].called
    ensures Fits(nodes[path[0]], items[0], path[1])
  {
    forall i | 0 <= i < |items| - 1
      ensures Fits(nodes[path[1..][i]], items[1..][i], path[1..][i + 1])
    {
      assert items[1..][i] == items[i + 1];
    }
    assert items[0] == items[0];
  }

  /** One call made: what was left loses its first stage. */
  lemma TrackCall(f: Chain, made: seq<Seen>, r: Rest)
    requires OnTrack(f, made, r) && r.items != [] && r.items[0].Do?
    ensures OnTrack(f, made + [Seen(r.items[0].stage.tag, r.arg)], After(r.items, r.arg))
  {
    var call := Seen(r.items[0].stage.tag, r.arg);
    forall n: nat
      ensures First(Whole(f), |made| + 1 + n) == made + [call] + First(After(r.items, r.arg), n)
    {
      assert First(r, n + 1) == [call] + First(After(r.items, r.arg), n);
    }
    forall fuel: nat | Mean(Dos(f.stages), f.init, fuel).Some?
      ensures var all := Mean(Dos(f.stages), f.init, fuel).value; made + [call] <= all && |made| + 1 <= fuel
      ensures var all, q := Mean(Dos(f.stages), f.init, fuel).value, After(r.items, r.arg);
              Mean(q.items, q.arg, fuel - |made| - 1) == Some(all[|made| + 1..])
    {
      var all := Mean(Dos(f.stages), f.init, fuel).value;
      assert Mean(r.items, r.arg, fuel - |made|) == Some(all[|made|..]);
      assert all[|made|..][0] == call;
      assert all[|made|..][1..] == all[|made| + 1..];
    }
  }

  lemma TrackPass(f: Chain, made: seq<Seen>, r: Rest)
    requires OnTrack(f, made, r) && r.items != [] && r.items[0].Pass?
    ensures OnTrack(f, made, Rest(r.items[1..], r.arg))
  {
    var r' := Rest(r.items[1..], r.arg);
    forall n: nat
      ensures First(Whole(f), |made| + n) == made + First(r', n)
    {
      assert First(r, n) == First(r', n);
    }
  }

  lemma OfPush(log: seq<Event>, e: Event, j: nat)
    ensures Of(log + [e], j) == Of(log, j) + (if e.owner == j then [Seen(e.tag, e.arg)] else [])
  {
    assert (log + [e])[..|log|] == log;
  }

  function Range(base: nat, n: nat): (r: seq<nat>)
    ensures |r| == n && forall i | 0 <= i < n :: r[i] == base + i
  {
    seq(n, i requires 0 <= i < n => base + i)
  }

  /** One more node in front of a path. */
  lemma Prepend(nodes: seq<Node>, j: nat, n: nat, path: seq<nat>, item: Item, items: seq<Item>)
    requires Carries(nodes, j, path, items) && !nodes[path[0]].called
    requires n < |nodes| && nodes[n].owner == j && n !in path && Fits(nodes[n], item, path[0])
    ensures Carries(nodes, j, [n] + path, [item] + items)
  {
    var path', items' := [n] + path, [item] + items;
    forall i {:trigger items'[i]} | 0 <= i < |items'|
      ensures Fits(nodes[path'[i]], items'[i], path'[i + 1])
    {
      if i > 0 { assert items'[i] == items[i - 1]; }
    }
  }

  lemma CarriesGrow(nodes: seq<Node>, node: Node, j: nat, path: seq<nat>, items: seq<Item>)
    requires Carries(nodes, j, path, items)
    ensures Carries(nodes + [node], j, path, items)
  {
    CarriesSame(nodes, nodes + [node], j, path, items);
  }

  /** The node `last`, about to be built, leads to path, or ends the flow. */
  ghost predicate Leads(nodes: seq<Node>, j: nat, last: Node, path: seq<nat>, items: seq<Item>) {
    && last.owner == j && !last.called
    && if path == [] then last.act.None? && items == [] else
      items != [] && Fits(last, items[0], path[0]) && Carries(nodes, j, path, items[1..]) && !nodes[path[0]].called
  }

  lemma LeadsGrow(nodes: seq<Node>, node: Node, j: nat, last: Node, path: seq<nat>, items: seq<Item>)
    requires Leads(nodes, j, last, path, items)
    ensures Leads(nodes + [node], j, last, path, items) && last.owner == j && !last.called && |nodes| !in path
  {
    if path != [] { CarriesGrow(nodes, node, j, path, items[1..]); }
  }

  /** The nodes built for a flow carry its stages out, and then what the last one leads to. */
  lemma {:induction false} BuildCarries(nodes: seq<Node>, j: nat, stages: seq<Stage>, last: Node, path: seq<nat>,
                                        items: seq<Item>)
    requires Leads(nodes, j, last, path, items)
    ensures Carries(nodes + Build(|nodes|, stages, last), j, Range(|nodes|, |stages| + 1) + path, Dos(stages) + items)
    decreases |stages|
  {
    hide Leads, Carries, Range, Build, Dos;
    var base := |nodes|;
    if stages == [] {
      BuildLast(nodes, j, last, path, items);
      assert Range(base, 1) == [base] && Dos(stages) + items == items && Build(base, stages, last) == [last];
    } else {
      var first, path1 := Build(base, stages, last)[0], Range(base + 1, |stages|) + path;
      var nodes' := nodes + Build(base, stages, last);
      LeadsGrow(nodes, first, j, last, path, items);
      BuildCarries(nodes + [first], j, stages[1..], last, path, items);
      BuildSplits(nodes, stages, last);
      BuildPath(base, stages, path, items);
      BuildFirst(nodes', j, stages, path1, items, first);
    }
  }

  lemma BuildSplits(nodes: seq<Node>, stages: seq<Stage>, last: Node)
    requires stages != [] && !last.called
    ensures var first, nodes' := Build(|nodes|, stages, last)[0], nodes + Build(|nodes|, stages, last);
            && nodes' == nodes + [first] + Build(|nodes| + 1, stages[1..], last)
            && nodes'[|nodes|] == first && !nodes'[|nodes| + 1].called
  {
    var first, rest := Build(|nodes|, stages, last)[0], Build(|nodes| + 1, stages[1..], last);
    assert Build(|nodes|, stages, last) == [first] + rest;
    assert !rest[0].called;
  }

  lemma BuildPath(base: nat, stages: seq<Stage>, path: seq<nat>, items: seq<Item>)
    requires stages != [] && base !in path
    ensures var path1 := Range(base + 1, |stages|) + path;
            path1[0] == base + 1 && base !in path1 && Range(base, |stages| + 1) + path == [base] + path1
    ensures Dos(stages) + items == [Do(stages[0])] + (Dos(stages[1..]) + items)
  {
  }

  lemma BuildLast(nodes: seq<Node>, j: nat, last: Node, path: seq<nat>, items: seq<Item>)
    requires Leads(nodes, j, last, path, items)
    ensures Carries(nodes + [last], j, [|nodes|] + path, items)
  {
    if path != [] {
      CarriesGrow(nodes, last, j, path, items[1..]);
      Prepend(nodes + [last], j, |nodes|, path, items[0], items[1..]);
      assert [items[0]] + items[1..] == items;
    }
  }

  lemma BuildFirst(nodes: seq<Node>, j: nat, stages: seq<Stage>, path: seq<nat>, items: seq<Item>, first: Node)
    requires stages != [] && path != [] && path[0] > 0 && path[0] < |nodes| && nodes[path[0] - 1] == first &&
      !nodes[path[0]].called
    requires Carries(nodes, j, path, Dos(stages[1..]) + items) && path[0] - 1 !in path
    requires first == Node(false, Some(Call(stages[0], path[0])), stages[0].runner, Mono, j)
    ensures Carries(nodes, j, [path[0] - 1] + path, [Do(stages[0])] + (Dos(stages[1..]) + items))
  {
    Prepend(nodes, j, path[0] - 1, path, Do(stages[0]), Dos(stages[1..]) + items);
  }

  lemma KnowAct(s: State, a: Aux, t: Task)
    requires Inv(s, a, t.owner) && TaskOk(s.nodes, a, t) && t.Act?
    ensures t.owner < |a.rests| == |a.paths| == |s.flows| && t.n < |s.nodes|
    ensures var r, path, node := a.rests[t.owner], a.paths[t.owner], s.nodes[t.n];
            && r.items != [] && |path| > 1 && node.value == r.arg && node.owner == t.owner &&
              Fits(node, r.items[0], path[1])
            && Carries(s.nodes, t.owner, path[1..], r.items[1..]) && !s.nodes[path[1]].called
            && OnTrack(s.flows[t.owner].flow, Of(s.log, t.owner), r)
    ensures forall i | 0 <= i < |s.log| :: s.log[i].owner < |s.flows|
  {
    CarriesTail(s.nodes, t.owner, a.paths[t.owner], a.rests[t.owner].items);
    KnowTrack(s.flows, s.log, a.rests, t.owner);
  }

  /** A submission's stage or relay has run: what it leaves is passed on. */
  lemma PerformKeeps(s: State, a: Aux, t: Task) returns (a': Aux)
    requires Inv(s, a, t.owner) && TaskOk(s.nodes, a, t) && t.Act?
    ensures t.n < |s.nodes| && Inv(Perform(s, t.n), a', -1)
    ensures t.owner < |a.rests| && a.rests[t.owner].items != [] &&
      a'.rests == a.rests[t.owner := Forward(a.rests[t.owner])]
  {
    hide Inv, TaskOk, OnTrack, Mean, Of, Carries, After;
    KnowAct(s, a, t);
    var j, r, path := t.owner, a.rests[t.owner], a.paths[t.owner];
    if r.items[0].Pass? {
      a' := RelayKeeps(s, a, t);
    } else {
      a' := CallKeeps(s, a, t);
    }
  }

  lemma RelayKeeps(s: State, a: Aux, t: Task) returns (a': Aux)
    requires Inv(s, a, t.owner) && TaskOk(s.nodes, a, t) && t.Act? && t.owner < |a.rests|
    requires a.rests[t.owner].items != [] && a.rests[t.owner].items[0].Pass?
    ensures t.n < |s.nodes| && Inv(Perform(s, t.n), a', -1)
    ensures a'.rests == a.rests[t.owner := Forward(a.rests[t.owner])]
  {
    hide Inv, TaskOk, OnTrack, Mean, Of, Carries, Trigger;
    KnowAct(s, a, t);
    var j, r, path := t.owner, a.rests[t.owner], a.paths[t.owner];
    TrackPass(s.flows[j].flow, Of(s.log, j), r);
    var s1 := s.(ran := s.ran + [t.n]);
    var a1 := Aux(a.rests[j := Rest(r.items[1..], r.arg)], a.paths[j := path[1..]]);
    Change(s, s1, a, a1, j);
    a' := Arrive(s1, a1, j);
  }

  lemma CallKeeps(s: State, a: Aux, t: Task) returns (a': Aux)
    requires Inv(s, a, t.owner) && TaskOk(s.nodes, a, t) && t.Act? && t.owner < |a.rests|
    requires a.rests[t.owner].items != [] && a.rests[t.owner].items[0].Do?
    ensures t.n < |s.nodes| && Inv(Perform(s, t.n), a', -1)
    ensures a'.rests == a.rests[t.owner := Forward(a.rests[t.owner])]
  {
    hide Inv, TaskOk, OnTrack, Mean, Of, Carries, Trigger, Launch;
    KnowAct(s, a, t);
    var j, r, path := t.owner, a.rests[t.owner], a.paths[t.owner];
    TrackCall(s.flows[j].flow, Of(s.log, j), r);
    var e := Event(j, r.items[0].stage.tag, r.arg, s.pass);
    forall i: nat
      ensures Of(s.log + [e], i) == Of(s.log, i) + (if j == i then [Seen(e.tag, e.arg)] else [])
    {
      OfPush(s.log, e, i);
    }
    var s1 := s.(ran := s.ran + [t.n], log := s.log + [e]);
    var q, o := After(r.items, r.arg), r.items[0].stage.body(r.arg);
    if o.Nested? {
      var last := Node(false, Some(Relay(path[1])), o.flow.tail, Mono, j);
      var items := [Pass(o.flow.tail)] + r.items[1..];
      assert items[1..] == r.items[1..];
      assert Dos(o.flow.stages) + items == q.items;
      a' := LaunchKeeps(s, s1, a, j, o.flow, last, path[1..], items, q);
    } else {
      var a1 := Aux(a.rests[j := q], a.paths[j := path[1..]]);
      Change(s, s1, a, a1, j);
      a' := Arrive(s1, a1, j);
    }
  }

  lemma LaunchKeeps(s: State, s1: State, a: Aux, j: nat, f: Chain, last: Node, path: seq<nat>, items: seq<Item>,
                    q: Rest) returns (a': Aux)
    requires Inv(s, a, j) && j < |a.rests| == |s.flows| && s1 == s.(ran := s1.ran, log := s1.log)
    requires Leads(s.nodes, j, last, path, items)
    requires q.items == Dos(f.stages) + items && q.arg == f.init
    requires forall i: nat | i != j :: Of(s1.log, i) == Of(s.log, i)
    requires OnTrack(s.flows[j].flow, Of(s1.log, j), q) && forall i | 0 <= i < |s1.log| :: s1.log[i].owner < |s.flows|
    ensures Inv(Launch(s1, f, last), a', -1)
    ensures a'.rests == a.rests[j := q]
  {
    hide OnTrack, Threads, TasksOk, Mean, Of, Carries, AllOnTrack;
    BuildCarries(s.nodes, j, f.stages, last, path, items);
    var base := |s.nodes|;
    var s2 := s1.(nodes := s.nodes + Build(base, f.stages, last));
    a' := Aux(a.rests[j := q], a.paths[j := Range(base, |f.stages| + 1) + path]);
    Change(s, s2, a, a', j);
    var t := Start(base, j, f.init);
    StartOk(s2.nodes, a', t);
    Park(s2, a', f.runner, t);
  }

  lemma StartOk(nodes: seq<Node>, a: Aux, t: Task)
    requires t.owner < |a.rests| == |a.paths| && t.Start? && t.arg == a.rests[t.owner].arg && a.paths[t.owner] != []
    requires Carries(nodes, t.owner, a.paths[t.owner], a.rests[t.owner].items) && a.paths[t.owner][0] == t.n
    requires t.n < |nodes| && !nodes[t.n].called
    ensures TaskOk(nodes, a, t)
  {
  }

  lemma {:induction false} OfNone(log: seq<Event>, j: nat)
    requires forall i | 0 <= i < |log| :: log[i].owner < j
    ensures Of(log, j) == []
  {
    if log != [] { OfNone(log[..|log| - 1], j); }
  }

  /** A new submission, before its first task is scheduled. */
  lemma Enroll(s: State, a: Aux, f: Chain)
    requires Inv(s, a, -1)
    ensures Inv(s.(flows := s.flows + [Submitted(f, s.pass)]),
      Aux(a.rests + [Rest(Dos(f.stages), f.init)], a.paths + [[]]), |s.flows|)
    ensures |s.flows| == |a.rests|
  {
    hide Mean, Of, Owners;
    var a' := Aux(a.rests + [Rest(Dos(f.stages), f.init)], a.paths + [[]]);
    OfNone(s.log, |s.flows|);
    TasksEnroll(s.nodes, a, a', s.queue);
    TasksEnroll(s.nodes, a, a', s.stack);
  }

  lemma TasksEnroll(nodes: seq<Node>, a: Aux, a': Aux, tasks: seq<Task>)
    requires TasksOk(nodes, a, tasks) && a.rests <= a'.rests && a.paths <= a'.paths && |a'.rests| == |a'.paths|
    ensures TasksOk(nodes, a', tasks)
  {
    hide Carries;
    forall i | 0 <= i < |tasks|
      ensures TaskOk(nodes, a', tasks[i])
    {
      assert TaskOk(nodes, a, tasks[i]);
    }
  }

  lemma SubmitKeeps(s: State, a: Aux, f: Chain) returns (a': Aux)
    requires Inv(s, a, -1)
    ensures Inv(Next(s, Submit(f)), a', -1) && a'.rests == a.rests + [Whole(f)]
  {
    hide Inv, Mean, Of;
    Enroll(s, a, f);
    var s0 := s.(flows := s.flows + [Submitted(f, s.pass)]);
    var a0 := Aux(a.rests + [Rest(Dos(f.stages), f.init)], a.paths + [[]]);
    var j, none := |s.flows|, [];
    KnowInvTrack(s0, a0, j, j);
    assert Dos(f.stages) + none == Dos(f.stages);
    a' := LaunchKeeps(s0, s0, a0, j, f, Node(false, None, f.tail, Mono, j), [], none, a0.rests[j]);
  }

  lemma KnowInvTrack(s: State, a: Aux, fid: int, j: nat)
    requires Inv(s, a, fid) && j < |s.flows|
    ensures |a.rests| == |s.flows| && OnTrack(s.flows[j].flow, Of(s.log, j), a.rests[j])
    ensures forall i | 0 <= i < |s.log| :: s.log[i].owner < |s.flows|
  {
  }

  lemma PickKeeps(s: State, a: Aux)
    requires Inv(s, a, -1)
    ensures Inv(Next(s, Pick), a, -1)
  {
    hide AllOnTrack, Threads, TaskOk, Owners;
    if s.stack == [] && s.len > 0 && s.queue != [] {
      OwnersPop(s.queue);
      OwnersOne(s.queue[0]);
      Rotate(multiset{s.queue[0].owner}, Owners(s.queue[1..]));
    }
  }

  lemma OwnersOne(t: Task)
    ensures Owners([t]) == multiset{t.owner} && Owners([]) == multiset{}
  {
    assert [t][..0] == [];
  }

  lemma Rotate(a: multiset<nat>, b: multiset<nat>)
    ensures a + b + multiset{} == b + a
  {
  }

  lemma RunKeeps(s: State, a: Aux) returns (a': Aux)
    requires Inv(s, a, -1)
    ensures Inv(Next(s, Run), a', -1)
    ensures s.stack != [] ==>
              var t := s.stack[|s.stack| - 1];
              && t.owner < |a.rests| && (t.Act? ==> a.rests[t.owner].items != [])
              && a'.rests == if t.Start? then a.rests else a.rests[t.owner := Forward(a.rests[t.owner])]
    ensures s.stack == [] ==> a' == a
  {
    hide Inv, Trigger, Perform, Carries, TaskOk;
    a' := a;
    if s.stack != [] {
      var t := s.stack[|s.stack| - 1];
      var s' := TakeTop(s, a);
      KnowTask(s.nodes, a, t);
      KnowOwner(s.nodes, a, t);
      if t.Start? {
        KnowStart(s.nodes, a, t);
        a' := Arrive(s', a, t.owner);
      } else {
        a' := PerformKeeps(s', a, t);
      }
    }
  }

  lemma KnowTask(nodes: seq<Node>, a: Aux, t: Task)
    requires TaskOk(nodes, a, t)
    ensures t.n < |nodes| && nodes[t.n].owner == t.owner
  {
  }

  lemma KnowStart(nodes: seq<Node>, a: Aux, t: Task)
    requires TaskOk(nodes, a, t) && t.Start?
    ensures t.owner < |a.rests| == |a.paths| && Carries(nodes, t.owner, a.paths[t.owner], a.rests[t.owner].items)
    ensures a.paths[t.owner] != [] && t.n == a.paths[t.owner][0] < |nodes| && !nodes[t.n].called &&
      t.arg == a.rests[t.owner].arg
  {
  }

  /** Nobody but the flows themselves triggers their nodes. */
  ghost predicate Unpoked(steps: seq<Step>) { forall i | 0 <= i < |steps| :: !steps[i].Poke? }

  lemma {:induction false} ExecInv(steps: seq<Step>) returns (a: Aux)
    requires Unpoked(steps)
    ensures Inv(Exec(steps), a, -1)
  {
    if steps == [] {
      a := Aux([], []);
    } else {
      a := ExecInv(steps[..|steps| - 1]);
      var s, last := Exec(steps[..|steps| - 1]), steps[|steps| - 1];
      match last
      case Submit(f) => a := SubmitKeeps(s, a, f);
      case Begin =>
      case Pick => PickKeeps(s, a);
      case Run => a := RunKeeps(s, a);
    }
  }

  /**
   In every run, on any mix of runners and with any other flows around, the calls made for a
   flow are a prefix of its left-to-right composition, and all of it once nothing is waiting.
   */
  lemma RunsAsComposed(steps: seq<Step>, j: nat, depth: nat)
    requires Unpoked(steps) && j < |Exec(steps).flows|
    requires var f := Exec(steps).flows[j].flow; Compose(f.stages, f.init, depth).Some?
    ensures var s := Exec(steps);
            var calls := Compose(s.flows[j].flow.stages, s.flows[j].flow.init, depth).value.0;
            Of(s.log, j) <= calls && (s.queue == [] && s.stack == [] ==> Of(s.log, j) == calls)
  {
    hide Compose, Exec;
    var s, f := Exec(steps), Exec(steps).flows[j].flow;
    var a := ExecInv(steps);
    ComposeMeans(f, depth);
    TracksEnd(s, a, j, Compose(f.stages, f.init, depth).value.0);
  }

  lemma TracksEnd(s: State, a: Aux, j: nat, calls: seq<Seen>)
    requires Inv(s, a, -1) && j < |s.flows| &&
      Mean(Dos(s.flows[j].flow.stages), s.flows[j].flow.init, |calls|) == Some(calls)
    ensures Of(s.log, j) <= calls && (s.queue == [] && s.stack == [] ==> Of(s.log, j) == calls)
  {
    hide Of;
    var made, r := Of(s.log, j), a.rests[j];
    assert OnTrack(s.flows[j].flow, made, r);
    if s.queue == [] && s.stack == [] {
      assert Busy(s)[j] == 0;
      assert Mean(r.items, r.arg, |calls| - |made|) == Some([]);
      assert calls[|made|..] == [];
      assert made == calls;
    }
  }

  ghost predicate Quiet(s: State) { s.queue == [] && s.stack == [] }

  /**
   In every run the calls made for a flow, which need not have an end, are the first of its
   meaning; once nothing is waiting there are no others to make.
   */
  lemma CallsInOrder(steps: seq<Step>, j: nat, n: nat)
    requires Unpoked(steps) && j < |Exec(steps).flows|
    ensures var s := Exec(steps);
            var made, all := Of(s.log, j), Whole(s.flows[j].flow);
            && made == First(all, |made|) && made <= First(all, |made| + n)
            && (Quiet(s) ==> First(all, |made| + n) == made)
  {
    hide Exec, Of;
    var s := Exec(steps);
    var a := ExecInv(steps);
    KnowInvTrack(s, a, -1, j);
    var made, r := Of(s.log, j), a.rests[j];
    assert First(r, 0) == [] && First(r, n) == First(r, n);
    if Quiet(s) { QuietRest(s, a, j); }
  }

  lemma QuietRest(s: State, a: Aux, j: nat)
    requires Inv(s, a, -1) && Quiet(s) && j < |a.rests|
    ensures a.rests[j].items == []
  {
    assert Busy(s)[j] == 0;
  }

  // ---------------------------------------------------------------- what is passed from stage to stage

  /** The next stage is told exactly what happened: an exception, a value, or that there is none. */
  ghost predicate Told(o: Outcome, arg: Arg) {
    && (forall e :: arg == Exc(e) <==> o == Throw(e))
    && (forall v :: arg == Val(v) <==> o == Result(v))
    && (arg == Mono <==> o == Nothing)
  }

  lemma OutwardTells(o: Outcome)
    requires !o.Nested?
    ensures Told(o, Outward(o))
  {
  }

  /** These calls are a beginning of what is left to do, each stage being told what the one before it came to. */
  ghost predicate Obeys(items: seq<Item>, arg: Arg, calls: seq<Seen>)
    decreases |calls|, |items|
  {
    calls == [] ||
    (items != [] &&
     if items[0].Pass? then Obeys(items[1..], arg, calls)
     else
       var o := items[0].stage.body(arg);
       && calls[0] == Seen(items[0].stage.tag, arg)
       && if o.Nested? then Obeys(Dos(o.flow.stages) + [Pass(o.flow.tail)] + items[1..], o.flow.init, calls[1..])
          else exists x :: Told(o, x) && Obeys(items[1..], x, calls[1..]))
  }

  lemma {:induction false} FirstObeys(r: Rest, n: nat)
    ensures Obeys(r.items, r.arg, First(r, n))
    decreases n, |r.items|
  {
    if n == 0 || r.items == [] {
    } else if r.items[0].Pass? {
      FirstObeys(Rest(r.items[1..], r.arg), n);
    } else {
      var next := After(r.items, r.arg);
      FirstObeys(next, n - 1);
      assert First(r, n)[1..] == First(next, n - 1);
      var o := r.items[0].stage.body(r.arg);
      if !o.Nested? { OutwardTells(o); }
    }
  }

  /** In every run the calls made for a flow obey the flow. */
  lemma CallsObey(steps: seq<Step>, j: nat)
    requires Unpoked(steps) && j < |Exec(steps).flows|
    ensures var f := Exec(steps).flows[j].flow; Obeys(Dos(f.stages), f.init, Of(Exec(steps).log, j))
  {
    hide Exec, Of, First, Obeys;
    var s := Exec(steps);
    CallsInOrder(steps, j, 0);
    FirstObeys(Whole(s.flows[j].flow), |Of(s.log, j)|);
  }

  /** None of these stages returns a flow. */
  ghost predicate Plain(stages: seq<Stage>) {
    forall i, arg | 0 <= i < |stages| :: !stages[i].body(arg).Nested?
  }

  /** Call k is one of stage k, and the call after it, of the next stage, is told what came of it. */
  ghost predicate InTurn(stages: seq<Stage>, calls: seq<Seen>, k: nat) {
    && k < |stages| && k < |calls| && calls[k].tag == stages[k].tag
    && (k + 1 < |calls| && k + 1 < |stages| ==> Told(stages[k].body(calls[k].arg), calls[k + 1].arg))
  }

  ghost predicate AllInTurn(stages: seq<Stage>, calls: seq<Seen>) {
    forall k | 0 <= k < |stages| :: InTurn(stages, calls, k)
  }

  lemma {:induction false} PlainInTurn(stages: seq<Stage>, rest: seq<Item>, arg: Arg, calls: seq<Seen>, k: nat)
    requires Plain(stages) && Obeys(Dos(stages) + rest, arg, calls) && k < |stages| && k < |calls|
    ensures calls[0].arg == arg && InTurn(stages, calls, k)
    decreases |stages|
  {
    hide Told;
    var items := Dos(stages) + rest;
    assert items[0] == Do(stages[0]) && items[1..] == Dos(stages[1..]) + rest;
    assert !stages[0].body(arg).Nested?;
    var x :| Told(stages[0].body(arg), x) && Obeys(items[1..], x, calls[1..]);
    if k > 0 || (1 < |calls| && 1 < |stages|) {
      assert Plain(stages[1..]) by {
        forall i, y | 0 <= i < |stages[1..]| ensures !stages[1..][i].body(y).Nested? {
          assert stages[1..][i] == stages[i + 1];
        }
      }
      PlainInTurn(stages[1..], rest, x, calls[1..], if k > 0 then k - 1 else 0);
    }
  }

  /** What comes behind the stages goes on with what the last of them came to. */
  lemma {:induction false} PlainThen(stages: seq<Stage>, rest: seq<Item>, arg: Arg, calls: seq<Seen>) returns (x: Arg)
    requires Plain(stages) && Obeys(Dos(stages) + rest, arg, calls) && |stages| <= |calls|
    ensures Obeys(rest, x, calls[|stages|..])
    ensures if stages == [] then x == arg else Told(stages[|stages| - 1].body(calls[|stages| - 1].arg), x)
    decreases |stages|
  {
    hide Told;
    var items := Dos(stages) + rest;
    if stages == [] {
      assert items == rest && calls[0..] == calls;
      x := arg;
    } else {
      assert items[0] == Do(stages[0]) && items[1..] == Dos(stages[1..]) + rest;
      assert !stages[0].body(arg).Nested?;
      x :| Told(stages[0].body(arg), x) && Obeys(items[1..], x, calls[1..]);
      assert Plain(stages[1..]) by {
        forall i, y | 0 <= i < |stages[1..]| ensures !stages[1..][i].body(y).Nested? {
          assert stages[1..][i] == stages[i + 1];
        }
      }
      x := PlainThen(stages[1..], rest, x, calls[1..]);
      assert calls[1..][|stages| - 1..] == calls[|stages|..];
    }
  }

  /**
   In every run of a flow without nested ones, the calls are those of the first stages in order:
   the first is told what started the flow, and each other one what came of the one before.
   */
  lemma StageToStage(steps: seq<Step>, j: nat, k: nat)
    requires Unpoked(steps) && j < |Exec(steps).flows| && Plain(Exec(steps).flows[j].flow.stages)
    requires k < |Of(Exec(steps).log, j)|
    ensures var f, calls := Exec(steps).flows[j].flow, Of(Exec(steps).log, j);
      |calls| <= |f.stages| && calls[0].arg == f.init && InTurn(f.stages, calls, k)
  {
    hide Exec, Of, Plain;
    CallsObey(steps, j);
    var f, calls := Exec(steps).flows[j].flow, Of(Exec(steps).log, j);
    var none: seq<Item> := [];
    assert Dos(f.stages) + none == Dos(f.stages);
    if |calls| > |f.stages| { var x := PlainThen(f.stages, none, f.init, calls); }
    PlainInTurn(f.stages, none, f.init, calls, k);
  }

  /**
   The same across a nested flow: when stage i returns a flow, its stages are called next, and then
   stage i + 1, which is told what came of the last of them, or what starts the nested flow if it
   has none.
   */
  lemma ThroughNested(steps: seq<Step>, j: nat, i: nat, g: Chain)
    requires Unpoked(steps) && j < |Exec(steps).flows|
    requires var f, calls := Exec(steps).flows[j].flow, Of(Exec(steps).log, j);
      && i < |f.stages| && i + 1 + |g.stages| < |calls| && Plain(f.stages[..i]) && Plain(g.stages)
      && f.stages[i].body(calls[i].arg) == Nested(g)
    ensures var f, calls, m := Exec(steps).flows[j].flow, Of(Exec(steps).log, j), |g.stages|;
      && AllInTurn(g.stages, calls[i + 1..])
      && (m > 0 ==> calls[i + 1].arg == g.init)
      && i + 1 < |f.stages| && calls[i + 1 + m].tag == f.stages[i + 1].tag
      && if m == 0 then calls[i + 1].arg == g.init
         else Told(g.stages[m - 1].body(calls[i + m].arg), calls[i + 1 + m].arg)
  {
    hide Exec, Of;
    CallsObey(steps, j);
    var f, calls := Exec(steps).flows[j].flow, Of(Exec(steps).log, j);
    hide Plain;
    NestedThen(f.stages, f.init, calls, i, g);
  }

  lemma NestedThen(stages: seq<Stage>, arg: Arg, calls: seq<Seen>, i: nat, g: Chain)
    requires Obeys(Dos(stages), arg, calls) && i < |stages| && i + 1 + |g.stages| < |calls|
    requires Plain(stages[..i]) && Plain(g.stages) && stages[i].body(calls[i].arg) == Nested(g)
    ensures var m := |g.stages|;
      && AllInTurn(g.stages, calls[i + 1..])
      && (m > 0 ==> calls[i + 1].arg == g.init)
      && i + 1 < |stages| && calls[i + 1 + m].tag == stages[i + 1].tag
      && if m == 0 then calls[i + 1].arg == g.init
         else Told(g.stages[m - 1].body(calls[i + m].arg), calls[i + 1 + m].arg)
  {
    hide Plain, Told;
    var m := |g.stages|;
    assert Dos(stages) == Dos(stages[..i]) + Dos(stages[i..]);
    var x := PlainThen(stages[..i], Dos(stages[i..]), arg, calls);
    var rest := [Pass(g.tail)] + Dos(stages[i + 1..]);
    var later := calls[i + 1..];
    assert calls[i..][0] == calls[i] && calls[i..][1..] == later;
    assert Dos(stages[i..])[1..] == Dos(stages[i + 1..]);
    assert Dos(g.stages) + [Pass(g.tail)] + Dos(stages[i + 1..]) == Dos(g.stages) + rest;
    assert Obeys(Dos(g.stages) + rest, g.init, later);
    forall k | 0 <= k < m ensures InTurn(g.stages, later, k) { PlainInTurn(g.stages, rest, g.init, later, k); }
    if m > 0 { PlainInTurn(g.stages, rest, g.init, later, 0); }
    var y := PlainThen(g.stages, rest, g.init, later);
    assert rest[1..] == Dos(stages[i + 1..]) && later[m..][0] == calls[i + 1 + m];
  }

  // ---------------------------------------------------------------- where stages are scheduled

  /** The same stages, up to where they and the flows they return are scheduled, to a nesting of depth. */
  ghost predicate Alike(stages: seq<Stage>, stages': seq<Stage>, depth: nat)
    decreases depth, 2
  {
    |stages| == |stages'| && forall i | 0 <= i < |stages| :: AlikeStage(stages[i], stages'[i], depth)
  }

  ghost predicate AlikeStage(stage: Stage, stage': Stage, depth: nat)
    decreases depth, 1
  {
    stage.tag == stage'.tag && forall arg :: AlikeOutcome(stage.body(arg), stage'.body(arg), depth)
  }

  ghost predicate AlikeOutcome(o: Outcome, o': Outcome, depth: nat)
    decreases depth, 0
  {
    if o.Nested? && o'.Nested?
    then o.flow.init == o'.flow.init && (depth > 0 ==> Alike(o.flow.stages, o'.flow.stages, depth - 1))
    else o == o'
  }

  /** Flows that differ only in where they are scheduled, however deep. */
  ghost predicate SameFlow(f: Chain, f': Chain) {
    f.init == f'.init && forall depth: nat :: Alike(f.stages, f'.stages, depth)
  }

  /** Where stages are scheduled makes no difference to the composition. */
  lemma {:induction false} ComposeAlike(stages: seq<Stage>, stages': seq<Stage>, arg: Arg, depth: nat)
    requires Alike(stages, stages', depth)
    ensures Compose(stages, arg, depth) == Compose(stages', arg, depth)
    decreases depth, |stages|
  {
    if stages != [] {
      assert AlikeStage(stages[0], stages'[0], depth);
      var o, o' := stages[0].body(arg), stages'[0].body(arg);
      assert AlikeOutcome(o, o', depth);
      if o.Nested? && depth > 0 { ComposeAlike(o.flow.stages, o'.flow.stages, o.flow.init, depth - 1); }
      var mid :=
        if !o.Nested? then Some(([], Outward(o)))
        else if depth == 0 then None
        else Compose(o.flow.stages, o.flow.init, depth - 1);
      if mid.Some? { ComposeAlike(stages[1..], stages'[1..], mid.value.1, depth); }
    }
  }

  ghost predicate AlikeItem(x: Item, y: Item, depth: nat) {
    (x.Pass? && y.Pass?) || (x.Do? && y.Do? && AlikeStage(x.stage, y.stage, depth))
  }

  ghost predicate AlikeItems(items: seq<Item>, items': seq<Item>, depth: nat) {
    |items| == |items'| && forall i | 0 <= i < |items| :: AlikeItem(items[i], items'[i], depth)
  }

  lemma {:induction false} AlikeLess(stage: Stage, stage': Stage, depth: nat)
    requires depth > 0 && AlikeStage(stage, stage', depth)
    ensures AlikeStage(stage, stage', depth - 1)
    decreases depth, 0
  {
    forall arg
      ensures AlikeOutcome(stage.body(arg), stage'.body(arg), depth - 1)
    {
      var o, o' := stage.body(arg), stage'.body(arg);
      AlikeCall(stage, stage', arg, depth);
      if o.Nested? && o'.Nested? && depth > 1 { AlikeAllLess(o.flow.stages, o'.flow.stages, depth - 1); }
    }
  }

  lemma {:induction false} AlikeAllLess(stages: seq<Stage>, stages': seq<Stage>, depth: nat)
    requires depth > 0 && Alike(stages, stages', depth)
    ensures Alike(stages, stages', depth - 1)
    decreases depth, 1
  {
    hide AlikeStage;
    forall i | 0 <= i < |stages|
      ensures AlikeStage(stages[i], stages'[i], depth - 1)
    {
      AlikeLess(stages[i], stages'[i], depth);
    }
  }

  lemma AlikeTail(items: seq<Item>, items': seq<Item>, depth: nat)
    requires depth > 0 && items != [] && AlikeItems(items, items', depth)
    ensures AlikeItems(items[1..], items'[1..], depth - 1)
  {
    forall i | 0 <= i < |items| - 1
      ensures AlikeItem(items[1..][i], items'[1..][i], depth - 1)
    {
      assert AlikeItem(items[i + 1], items'[i + 1], depth);
      if items[i + 1].Do? { AlikeLess(items[i + 1].stage, items'[i + 1].stage, depth); }
    }
  }

  lemma AlikeAfter(items: seq<Item>, items': seq<Item>, arg: Arg, depth: nat)
    requires depth > 0 && items != [] && items[0].Do? && AlikeItems(items, items', depth)
    ensures items'[0].Do? && After(items, arg).arg == After(items', arg).arg
    ensures AlikeItems(After(items, arg).items, After(items', arg).items, depth - 1)
  {
    hide AlikeStage;
    assert AlikeItem(items[0], items'[0], depth);
    AlikeTail(items, items', depth);
    AlikeCall(items[0].stage, items'[0].stage, arg, depth);
    var o, o' := items[0].stage.body(arg), items'[0].stage.body(arg);
    if o.Nested? {
      var q, q' := After(items, arg).items, After(items', arg).items;
      var n := |o.flow.stages|;
      forall i | 0 <= i < |q|
        ensures AlikeItem(q[i], q'[i], depth - 1)
      {
        if i < n {
          assert AlikeStage(o.flow.stages[i], o'.flow.stages[i], depth - 1);
        } else if i > n {
          assert q[i] == items[1..][i - n - 1] && q'[i] == items'[1..][i - n - 1];
        }
      }
    }
  }

  lemma AlikeCall(stage: Stage, stage': Stage, arg: Arg, depth: nat)
    requires AlikeStage(stage, stage', depth)
    ensures AlikeOutcome(stage.body(arg), stage'.body(arg), depth) && stage.tag == stage'.tag
  {
  }

  /** Alike flows make the same first calls; each call goes one level deeper at most. */
  lemma {:induction false} FirstAlike(r: Rest, r': Rest, n: nat, depth: nat)
    requires r.arg == r'.arg && AlikeItems(r.items, r'.items, depth) && n <= depth + 1
    ensures First(r, n) == First(r', n)
    decreases n, |r.items|
  {
    if n > 0 && r.items != [] {
      assert AlikeItem(r.items[0], r'.items[0], depth);
      if r.items[0].Pass? {
        FirstAlike(Rest(r.items[1..], r.arg), Rest(r'.items[1..], r'.arg), n, depth);
      } else if depth > 0 {
        AlikeAfter(r.items, r'.items, r.arg, depth);
        FirstAlike(After(r.items, r.arg), After(r'.items, r.arg), n - 1, depth - 1);
      }
    }
  }

  lemma WholeAlike(f: Chain, f': Chain, n: nat)
    requires SameFlow(f, f')
    ensures First(Whole(f), n) == First(Whole(f'), n)
  {
    assert Alike(f.stages, f'.stages, n);
    FirstAlike(Whole(f), Whole(f'), n, n);
  }

  /**
   Deferred execution means what immediate execution means: of two flows that differ only in
   where they and the flows nested in them are scheduled, in any two runs, one has made the
   first calls of the other, and they have made the same calls once nothing is waiting.
   */
  lemma RunnersDoNotMatter(steps: seq<Step>, j: nat, steps': seq<Step>, j': nat)
    requires Unpoked(steps) && j < |Exec(steps).flows| && Unpoked(steps') && j' < |Exec(steps').flows|
    requires SameFlow(Exec(steps).flows[j].flow, Exec(steps').flows[j'].flow)
    ensures var made, made' := Of(Exec(steps).log, j), Of(Exec(steps').log, j');
            && (made <= made' || made' <= made)
            && (Quiet(Exec(steps)) && Quiet(Exec(steps')) ==> made == made')
  {
    hide Exec, Of, First, SameFlow;
    var made, made' := Of(Exec(steps).log, j), Of(Exec(steps').log, j');
    var f, f' := Exec(steps).flows[j].flow, Exec(steps').flows[j'].flow;
    CallsInOrder(steps, j, |made'|);
    CallsInOrder(steps', j', |made|);
    WholeAlike(f, f', |made| + |made'|);
    Prefixes(made, made', First(Whole(f), |made| + |made'|));
  }

  lemma Prefixes(a: seq<Seen>, b: seq<Seen>, c: seq<Seen>)
    requires a <= c && b <= c
    ensures a <= b || b <= a
  {
    if |a| <= |b| { assert a == b[..|a|]; } else { assert b == a[..|b|]; }
  }

  // ---------------------------------------------------------------- finite flows come to their end

  /** How many tasks are still to be run for what is left, if it makes at most fuel calls. */
  function Cost(r: Rest, fuel: nat): nat
    requires Mean(r.items, r.arg, fuel).Some?
    decreases fuel, |r.items|
  {
    if r.items == [] then 0
    else if r.items[0].Pass? then 1 + Cost(Rest(r.items[1..], r.arg), fuel)
    else 1 + (if r.items[0].stage.body(r.arg).Nested? then 1 else 0) + Cost(After(r.items, r.arg), fuel - 1)
  }

  ghost function OwedBy(r: Rest, fuel: int): nat {
    if fuel >= 0 && Mean(r.items, r.arg, fuel).Some? then Cost(r, fuel) else 0
  }

  ghost predicate Finite(f: Chain, depth: nat) { Compose(f.stages, f.init, depth).Some? }

  ghost predicate AllFinite(flows: seq<Submitted>, depth: nat) {
    forall j | 0 <= j < |flows| :: Finite(flows[j].flow, depth)
  }

  ghost function Calls(f: Chain, depth: nat): seq<Seen> {
    if Finite(f, depth) then Compose(f.stages, f.init, depth).value.0 else []
  }

  /** The calls submission j has still to make. */
  ghost function CallsLeft(s: State, depth: nat, j: nat): int
    requires j < |s.flows|
  {
    |Calls(s.flows[j].flow, depth)| - |Of(s.log, j)|
  }

  /** The tasks still to be run for the first n submissions, apart from those that start a flow. */
  ghost function Owed(s: State, rests: seq<Rest>, depth: nat, n: nat): nat
    requires n <= |rests| == |s.flows|
  {
    if n == 0 then 0 else Owed(s, rests, depth, n - 1) + OwedBy(rests[n - 1], CallsLeft(s, depth, n - 1))
  }

  /** How many of the tasks start a flow. */
  function Starts(tasks: seq<Task>): nat {
    if tasks == [] then 0 else Starts(tasks[..|tasks| - 1]) + if tasks[|tasks| - 1].Start? then 1 else 0
  }

  /** The tasks still to be run, now waiting or not. */
  ghost function Work(s: State, rests: seq<Rest>, depth: nat): nat
    requires |rests| == |s.flows|
  {
    Owed(s, rests, depth, |rests|) + Starts(s.queue) + Starts(s.stack)
  }

  /** The tasks that the first n submissions amount to. */
  ghost function Price(flows: seq<Submitted>, depth: nat, n: nat): nat
    requires n <= |flows|
  {
    if n == 0 then 0
    else Price(flows, depth, n - 1) + 1 + OwedBy(Whole(flows[n - 1].flow), |Calls(flows[n - 1].flow, depth)|)
  }

  /** The tasks that have been run. */
  function Ran(steps: seq<Step>): nat {
    if steps == [] then 0
    else
      var n := |steps| - 1;
      Ran(steps[..n]) + if steps[n] == Run && Exec(steps[..n]).stack != [] then 1 else 0
  }

  lemma StartsPush(tasks: seq<Task>, t: Task)
    ensures Starts(tasks + [t]) == Starts(tasks) + if t.Start? then 1 else 0
  {
    assert (tasks + [t])[..|tasks|] == tasks;
  }

  lemma {:induction false} StartsPop(tasks: seq<Task>)
    requires tasks != []
    ensures Starts(tasks) == Starts([tasks[0]]) + Starts(tasks[1..])
  {
    if |tasks| > 1 {
      StartsPop(tasks[..|tasks| - 1]);
      assert tasks[..|tasks| - 1][1..] == tasks[1..][..|tasks| - 2];
    } else {
      assert tasks[1..] == [] && tasks == [tasks[0]];
    }
  }

  lemma ScheduleStarts(s: State, r: Runner, t: Task)
    ensures var s' := Schedule(s, r, t);
            Starts(s'.queue) + Starts(s'.stack) == Starts(s.queue) + Starts(s.stack) + if t.Start? then 1 else 0
  {
    StartsPush(s.queue, t);
    StartsPush(s.stack, t);
  }

  lemma TriggerStarts(s: State, n: nat, arg: Arg)
    ensures var s' := Trigger(s, n, arg);
            && Starts(s'.queue) + Starts(s'.stack) == Starts(s.queue) + Starts(s.stack)
            && s'.log == s.log && s'.flows == s.flows
  {
    hide Starts;
    if n < |s.nodes| && !s.nodes[n].called && s.nodes[n].act.Some? {
      ScheduleStarts(s.(nodes := s.nodes[n := s.nodes[n].(called := true, value := arg)]), s.nodes[n].runner,
        Act(n, s.nodes[n].owner));
    }
  }

  lemma LaunchStarts(s: State, f: Chain, last: Node)
    ensures var s' := Launch(s, f, last);
            && Starts(s'.queue) + Starts(s'.stack) == Starts(s.queue) + Starts(s.stack) + 1
            && s'.log == s.log && s'.flows == s.flows
  {
    hide Starts;
    ScheduleStarts(s.(nodes := s.nodes + Build(|s.nodes|, f.stages, last)), f.runner,
      Start(|s.nodes|, last.owner, f.init));
  }

  /** Only submission j's share changes. */
  lemma {:induction false} OwedChange(s: State, s': State, rests: seq<Rest>, rests': seq<Rest>, depth: nat, j: nat,
                                      n: nat)
    requires n <= |rests| == |s.flows| == |rests'| == |s'.flows| && s'.flows == s.flows && j < |rests|
    requires forall i | 0 <= i < |rests| && i != j :: rests'[i] == rests[i] && |Of(s'.log, i)| == |Of(s.log, i)|
    ensures var now, then_ := OwedBy(rests'[j], CallsLeft(s', depth, j)), OwedBy(rests[j], CallsLeft(s, depth, j));
            Owed(s', rests', depth, n) == Owed(s, rests, depth, n) + if j < n then now - then_ else 0
  {
    hide OwedBy, Calls, Of;
    if n > 0 { OwedChange(s, s', rests, rests', depth, j, n - 1); }
  }

  /** What is left of a finite flow is finite. */
  lemma LeftFinite(s: State, a: Aux, depth: nat, j: nat)
    requires Inv(s, a, -1) && j < |s.flows| && Finite(s.flows[j].flow, depth)
    ensures |a.rests| == |s.flows| && CallsLeft(s, depth, j) >= 0
    ensures Mean(a.rests[j].items, a.rests[j].arg, CallsLeft(s, depth, j)).Some?
  {
    hide Compose, Of, OnTrack, Mean;
    KnowInvTrack(s, a, -1, j);
    ComposeMeans(s.flows[j].flow, depth);
    LeftMeans(s.flows[j].flow, Of(s.log, j), a.rests[j], Calls(s.flows[j].flow, depth));
  }

  lemma LeftMeans(f: Chain, made: seq<Seen>, r: Rest, calls: seq<Seen>)
    requires OnTrack(f, made, r) && Mean(Dos(f.stages), f.init, |calls|) == Some(calls)
    ensures |made| <= |calls| && Mean(r.items, r.arg, |calls| - |made|).Some?
  {
    hide Mean;
  }

  lemma CostForward(r: Rest, fuel: nat)
    requires Mean(r.items, r.arg, fuel).Some? && r.items != []
    ensures r.items[0].Do? ==> fuel > 0
    ensures var r', n := Forward(r), if r.items[0].Pass? then fuel else fuel - 1;
            && Mean(r'.items, r'.arg, n).Some?
            && Cost(r, fuel) == Cost(r', n) + if r.items[0].Do? && r.items[0].stage.body(r.arg).Nested? then 2 else 1
  {
  }

  /** A task that starts a flow is run: one task less. */
  lemma StartWork(s: State, a: Aux, depth: nat)
    requires Inv(s, a, -1) && s.stack != [] && s.stack[|s.stack| - 1].Start?
    ensures |a.rests| == |s.flows| == |Next(s, Run).flows|
    ensures Work(Next(s, Run), a.rests, depth) + 1 == Work(s, a.rests, depth)
  {
    hide Inv, TaskOk, Trigger, Owed, Starts;
    KnowRests(s, a);
    var t := s.stack[|s.stack| - 1];
    var s' := TakeTop(s, a);
    KnowTask(s.nodes, a, t);
    assert s.stack == s'.stack + [t];
    StartsPush(s'.stack, t);
    TriggerStarts(s', t.n, t.arg);
    OwedMore(s, Next(s, Run), a.rests, a.rests, depth, |a.rests|);
  }

  lemma KnowRests(s: State, a: Aux)
    requires Inv(s, a, -1)
    ensures |a.rests| == |s.flows|
  {
  }

  /** What running an action does to the log and to the tasks that start a flow. */
  lemma PerformShows(s: State, n: nat, r: Rest, next: nat)
    requires n < |s.nodes| && r.items != [] && Fits(s.nodes[n], r.items[0], next) && s.nodes[n].value == r.arg
    ensures var s' := Perform(s, n);
            && s'.flows == s.flows
            && Starts(s'.queue) + Starts(s'.stack) == Starts(s.queue) + Starts(s.stack) +
                 (if r.items[0].Do? && r.items[0].stage.body(r.arg).Nested? then 1 else 0)
            && s'.log == s.log + (if r.items[0].Do? then [Event(s.nodes[n].owner, r.items[0].stage.tag, r.arg, s.pass)]
              else [])
  {
    hide Starts, Trigger, Launch;
    var node, s1 := s.nodes[n], s.(ran := s.ran + [n]);
    if r.items[0].Pass? {
      TriggerStarts(s1, next, r.arg);
    } else {
      var stage := r.items[0].stage;
      var o := stage.body(r.arg);
      var s2 := s1.(log := s.log + [Event(node.owner, stage.tag, r.arg, s.pass)]);
      if o.Nested? {
        LaunchStarts(s2, o.flow, Node(false, Some(Relay(next)), o.flow.tail, Mono, node.owner));
      } else {
        TriggerStarts(s2, next, Outward(o));
      }
    }
  }

  /** An action is run: one task less, a nested flow's being counted from before. */
  lemma ActWork(s: State, a: Aux, depth: nat, rests: seq<Rest>)
    requires Inv(s, a, -1) && AllFinite(s.flows, depth) && s.stack != [] && s.stack[|s.stack| - 1].Act?
    requires var j := s.stack[|s.stack| - 1].owner;
             j < |a.rests| && a.rests[j].items != [] && rests == a.rests[j := Forward(a.rests[j])]
    ensures |a.rests| == |s.flows| == |Next(s, Run).flows|
    ensures Work(Next(s, Run), rests, depth) + 1 == Work(s, a.rests, depth)
  {
    hide Inv, TaskOk, Carries, OnTrack, Perform, Mean, Cost, Forward, Starts, Owed, Of, Calls, Finite;
    KnowRests(s, a);
    var t := s.stack[|s.stack| - 1];
    var j, r := t.owner, a.rests[t.owner];
    var s' := TakeTop(s, a);
    LeftFinite(s, a, depth, j);
    KnowAct(s', a, t);
    var s2 := Next(s, Run);
    assert s2 == Perform(s', t.n);
    assert s.stack == s'.stack + [t];
    StartsPush(s'.stack, t);
    PerformShows(s', t.n, r, a.paths[j][1]);
    forall i: nat
      ensures |Of(s2.log, i)| == |Of(s.log, i)| + if i == j && r.items[0].Do? then 1 else 0
    {
      if r.items[0].Do? { OfPush(s.log, s2.log[|s.log|], i); } else { assert s2.log == s.log; }
    }
    OwedChange(s, s2, a.rests, rests, depth, j, |a.rests|);
    CostForward(r, CallsLeft(s, depth, j));
  }

  lemma RunWork(s: State, a: Aux, depth: nat) returns (a': Aux)
    requires Inv(s, a, -1) && AllFinite(s.flows, depth)
    ensures Inv(Next(s, Run), a', -1) && |a.rests| == |s.flows| == |Next(s, Run).flows| == |a'.rests|
    ensures Work(Next(s, Run), a'.rests, depth) + (if s.stack == [] then 0 else 1) == Work(s, a.rests, depth)
  {
    hide Inv, Next, AllFinite, Work, Forward;
    a' := RunKeeps(s, a);
    KnowRests(s, a);
    KnowRests(Next(s, Run), a');
    if s.stack == [] {
      NoRun(s);
    } else if s.stack[|s.stack| - 1].Start? {
      StartWork(s, a, depth);
    } else {
      ActWork(s, a, depth, a'.rests);
    }
  }

  lemma NoRun(s: State)
    requires s.stack == []
    ensures Next(s, Run) == s
  {
  }

  /** Beginning a pass and picking a task only move tasks about. */
  lemma MoveWork(s: State, step: Step, rests: seq<Rest>, depth: nat)
    requires |rests| == |s.flows| && (step == Begin || step == Pick)
    ensures |Next(s, step).flows| == |s.flows| && Work(Next(s, step), rests, depth) == Work(s, rests, depth)
  {
    hide Owed;
    if step == Pick && s.stack == [] && s.len > 0 && s.queue != [] { StartsPop(s.queue); }
    OwedMore(s, Next(s, step), rests, rests, depth, |rests|);
  }

  /** One more submission leaves the others' share as it was. */
  lemma {:induction false} OwedMore(s: State, s': State, rests: seq<Rest>, rests': seq<Rest>, depth: nat, n: nat)
    requires n <= |rests| == |s.flows| && |rests'| == |s'.flows| && rests <= rests' && s.flows <= s'.flows &&
      s'.log == s.log
    ensures Owed(s', rests', depth, n) == Owed(s, rests, depth, n)
  {
    hide OwedBy, Calls, Of;
    if n > 0 { OwedMore(s, s', rests, rests', depth, n - 1); }
  }

  lemma SubmitWork(s: State, a: Aux, f: Chain, depth: nat) returns (a': Aux)
    requires Inv(s, a, -1)
    ensures var s' := Next(s, Submit(f));
            && Inv(s', a', -1) && |a.rests| == |s.flows| && |a'.rests| == |s'.flows| == |s.flows| + 1
            && s'.flows == s.flows + [Submitted(f, s.pass)]
            && Work(s', a'.rests, depth) == Work(s, a.rests, depth) + 1 + OwedBy(Whole(f), |Calls(f, depth)|)
  {
    hide Inv, OwedBy, Starts, Launch;
    KnowRests(s, a);
    var s' := Next(s, Submit(f));
    a' := SubmitKeeps(s, a, f);
    LaunchStarts(s.(flows := s.flows + [Submitted(f, s.pass)]), f, Node(false, None, f.tail, Mono, |s.flows|));
    OwedMore(s, s', a.rests, a'.rests, depth, |s.flows|);
    KnowLog(s, a);
    OfNone(s.log, |s.flows|);
  }

  lemma KnowLog(s: State, a: Aux)
    requires Inv(s, a, -1)
    ensures forall i | 0 <= i < |s.log| :: s.log[i].owner < |s.flows|
  {
  }

  lemma {:induction false} PriceMore(flows: seq<Submitted>, flows': seq<Submitted>, depth: nat, n: nat)
    requires n <= |flows| && flows <= flows'
    ensures Price(flows', depth, n) == Price(flows, depth, n)
  {
    hide OwedBy, Calls;
    if n > 0 { PriceMore(flows, flows', depth, n - 1); }
  }

  lemma FlowsGrow(s: State, step: Step)
    ensures s.flows <= Next(s, step).flows && (!step.Submit? ==> Next(s, step).flows == s.flows)
  {
  }

  lemma FiniteBefore(s: State, step: Step, depth: nat)
    requires AllFinite(Next(s, step).flows, depth)
    ensures AllFinite(s.flows, depth)
  {
    hide Next, Finite;
    FlowsGrow(s, step);
    forall j | 0 <= j < |s.flows|
      ensures Finite(s.flows[j].flow, depth)
    {
      assert Next(s, step).flows[j] == s.flows[j];
    }
  }

  ghost function Total(flows: seq<Submitted>, depth: nat): nat { Price(flows, depth, |flows|) }

  lemma SubmitTotal(flows: seq<Submitted>, f: Submitted, depth: nat)
    ensures Total(flows + [f], depth) == Total(flows, depth) + 1 + OwedBy(Whole(f.flow), |Calls(f.flow, depth)|)
  {
    hide OwedBy, Calls;
    PriceMore(flows, flows + [f], depth, |flows|);
  }

  lemma StepWork(s: State, a: Aux, step: Step, depth: nat) returns (a': Aux)
    requires Inv(s, a, -1) && AllFinite(s.flows, depth) && !step.Poke?
    ensures var s' := Next(s, step);
            && Inv(s', a', -1) && |a.rests| == |s.flows| && |a'.rests| == |s'.flows|
            && (if step == Run && s.stack != [] then 1 else 0) + Work(s', a'.rests, depth) + Total(s.flows, depth)
               == Work(s, a.rests, depth) + Total(s'.flows, depth)
  {
    hide Inv, Next, Work, AllFinite, OwedBy, Total, Whole, Calls;
    KnowRests(s, a);
    FlowsGrow(s, step);
    a' := a;
    match step
    case Submit(f) =>
      a' := SubmitWork(s, a, f, depth);
      SubmitTotal(s.flows, Submitted(f, s.pass), depth);
    case Begin => BeginKeeps(s, a); MoveWork(s, step, a.rests, depth);
    case Pick => PickKeeps(s, a); MoveWork(s, step, a.rests, depth);
    case Run => a' := RunWork(s, a, depth);
  }

  /** Conservation of work: tasks run and tasks left make up what was submitted. */
  lemma {:induction false} WorkConserved(steps: seq<Step>, depth: nat) returns (a: Aux)
    requires Unpoked(steps) && AllFinite(Exec(steps).flows, depth)
    ensures var s := Exec(steps);
            && Inv(s, a, -1) && |a.rests| == |s.flows|
            && Ran(steps) + Work(s, a.rests, depth) == Total(s.flows, depth)
  {
    hide Inv, Next, Work, AllFinite, Total;
    if steps == [] {
      InitWork(depth);
      a := Aux([], []);
    } else {
      var n := |steps| - 1;
      FiniteBefore(Exec(steps[..n]), steps[n], depth);
      a := WorkConserved(steps[..n], depth);
      a := StepWork(Exec(steps[..n]), a, steps[n], depth);
    }
  }

  lemma InitWork(depth: nat)
    ensures Inv(Init(), Aux([], []), -1) && Work(Init(), [], depth) == 0 == Total([], depth)
  {
  }

  lemma BeginKeeps(s: State, a: Aux)
    requires Inv(s, a, -1)
    ensures Inv(Next(s, Begin), a, -1)
  {
  }

  lemma {:induction false} OwedZero(s: State, rests: seq<Rest>, depth: nat, n: nat)
    requires n <= |rests| == |s.flows| && forall j | 0 <= j < n :: rests[j].items == []
    ensures Owed(s, rests, depth, n) == 0
  {
    hide OwedBy, CallsLeft;
    if n > 0 {
      OwedZero(s, rests, depth, n - 1);
      OwedNothing(rests[n - 1], CallsLeft(s, depth, n - 1));
    }
  }

  lemma OwedNothing(r: Rest, fuel: int)
    requires r.items == []
    ensures OwedBy(r, fuel) == 0
  {
  }

  lemma {:induction false} OwedSome(s: State, rests: seq<Rest>, depth: nat, n: nat, j: nat)
    requires j < n <= |rests| == |s.flows| && OwedBy(rests[j], CallsLeft(s, depth, j)) > 0
    ensures Owed(s, rests, depth, n) > 0
  {
    hide OwedBy, CallsLeft;
    if j < n - 1 { OwedSome(s, rests, depth, n - 1, j); }
  }

  lemma {:induction false} StartsSome(tasks: seq<Task>, i: nat)
    requires i < |tasks| && tasks[i].Start?
    ensures Starts(tasks) > 0
  {
    if i < |tasks| - 1 { StartsSome(tasks[..|tasks| - 1], i); }
  }

  /** A task that waits is work to be done. */
  lemma WaitingWork(s: State, a: Aux, depth: nat, t: Task)
    requires Inv(s, a, -1) && AllFinite(s.flows, depth) && TaskOk(s.nodes, a, t) && t.Act?
    ensures |a.rests| == |s.flows| && Work(s, a.rests, depth) > 0
  {
    KnowRests(s, a);
    assert t.owner < |a.rests| && a.rests[t.owner].items != [];
    hide Inv, TaskOk;
    LeftFinite(s, a, depth, t.owner);
    OwedSome(s, a.rests, depth, |a.rests|, t.owner);
  }

  lemma QuietWork(s: State, a: Aux, depth: nat)
    requires Inv(s, a, -1) && AllFinite(s.flows, depth)
    ensures |a.rests| == |s.flows| && (Quiet(s) <==> Work(s, a.rests, depth) == 0)
  {
    KnowRests(s, a);
    KnowTasks(s, a);
    hide Inv, TaskOk, AllFinite, Owed;
    if Quiet(s) {
      forall j | 0 <= j < |a.rests| ensures a.rests[j].items == [] { QuietRest(s, a, j); }
      OwedZero(s, a.rests, depth, |a.rests|);
    } else {
      var tasks := if s.queue != [] then s.queue else s.stack;
      assert TaskOk(s.nodes, a, tasks[0]);
      if tasks[0].Start? { StartsSome(tasks, 0); } else { WaitingWork(s, a, depth, tasks[0]); }
    }
  }

  lemma KnowTasks(s: State, a: Aux)
    requires Inv(s, a, -1)
    ensures TasksOk(s.nodes, a, s.queue) && TasksOk(s.nodes, a, s.stack)
  {
  }

  /**
   In every schedule of finite flows at most so many tasks are run as the flows amount to, and
   exactly so many when nothing is waiting.
   */
  lemma EveryScheduleEnds(steps: seq<Step>, depth: nat)
    requires Unpoked(steps) && AllFinite(Exec(steps).flows, depth)
    ensures Ran(steps) <= Total(Exec(steps).flows, depth)
    ensures Ran(steps) == Total(Exec(steps).flows, depth) <==> Quiet(Exec(steps))
  {
    hide Exec, AllFinite, Work, Quiet, Inv, Ran, Total;
    var a := WorkConserved(steps, depth);
    QuietWork(Exec(steps), a, depth);
  }

  lemma ExecPush(steps: seq<Step>, step: Step)
    ensures Exec(steps + [step]) == Next(Exec(steps), step)
    ensures Ran(steps + [step]) == Ran(steps) + if step == Run && Exec(steps).stack != [] then 1 else 0
  {
    assert (steps + [step])[..|steps|] == steps;
  }

  /** From any point on there are steps that run one more task. */
  lemma OneMore(before: seq<Step>) returns (steps: seq<Step>)
    requires Unpoked(before) && !Quiet(Exec(before))
    ensures before <= steps && Unpoked(steps) && Exec(steps).flows == Exec(before).flows &&
      Ran(steps) == Ran(before) + 1
  {
    hide Exec, Ran, Next;
    var s := Exec(before);
    steps := before;
    if s.stack == [] {
      if s.len == 0 { ExecPush(steps, Begin); steps := steps + [Begin]; }
      Begins(s);
      ExecPush(steps, Pick);
      steps := steps + [Pick];
    }
    ExecPush(steps, Run);
    FlowsGrow(Exec(steps), Run);
    steps := steps + [Run];
  }

  lemma Begins(s: State)
    requires s.stack == [] && s.queue != []
    ensures var s' := if s.len == 0 then Next(s, Begin) else s;
            Next(s', Pick).stack != [] && Next(s', Pick).flows == s.flows
  {
  }

  /** Any run of finite flows, whatever state it has left them in, can be run until nothing is waiting. */
  lemma {:induction false} RunsToTheEnd(before: seq<Step>, depth: nat) returns (steps: seq<Step>)
    requires Unpoked(before) && AllFinite(Exec(before).flows, depth)
    ensures before <= steps && Unpoked(steps) && Exec(steps).flows == Exec(before).flows && Quiet(Exec(steps))
    ensures forall j | 0 <= j < |Exec(steps).flows| :: Of(Exec(steps).log, j) == Calls(Exec(steps).flows[j].flow, depth)
    decreases Total(Exec(before).flows, depth) - Ran(before)
  {
    hide Exec, Ran, Total, Of, Quiet;
    EveryScheduleEnds(before, depth);
    if Quiet(Exec(before)) {
      steps := before;
      forall j | 0 <= j < |Exec(steps).flows|
        ensures Of(Exec(steps).log, j) == Calls(Exec(steps).flows[j].flow, depth)
      {
        EndsAsComposed(steps, j, depth);
      }
    } else {
      var more := OneMore(before);
      EveryScheduleEnds(more, depth);
      steps := RunsToTheEnd(more, depth);
    }
  }

  lemma EndsAsComposed(steps: seq<Step>, j: nat, depth: nat)
    requires Unpoked(steps) && j < |Exec(steps).flows| && Finite(Exec(steps).flows[j].flow, depth) && Quiet(Exec(steps))
    ensures Of(Exec(steps).log, j) == Calls(Exec(steps).flows[j].flow, depth)
  {
    hide Exec, Of, Compose;
    RunsAsComposed(steps, j, depth);
  }

  // ---------------------------------------------------------------- in which pass a stage runs

  /** Everything on the task center, and no stage returns a flow. */
  ghost predicate Flat(f: Chain) { f.runner == Center && forall i | 0 <= i < |f.stages| :: FlatStage(f.stages[i]) }

  ghost predicate FlatStage(stage: Stage) { stage.runner == Center && forall arg :: !stage.body(arg).Nested? }

  /** The passes in which calls were made for submission j. */
  function Passes(log: seq<Event>, j: nat): seq<nat> {
    if log == [] then []
    else Passes(log[..|log| - 1], j) + (if log[|log| - 1].owner == j then [log[|log| - 1].pass] else [])
  }

  lemma PassesPush(log: seq<Event>, e: Event, j: nat)
    ensures Passes(log + [e], j) == Passes(log, j) + (if e.owner == j then [e.pass] else [])
  {
    assert (log + [e])[..|log|] == log;
  }

  /** The k-th call, counting from 0, k + 2 passes after the submission. */
  ghost predicate Timely(passes: seq<nat>, p: nat) { forall k | 0 <= k < |passes| :: passes[k] == p + k + 2 }

  ghost predicate AllTimely(flows: seq<Submitted>, log: seq<Event>) {
    forall j | 0 <= j < |flows| && Flat(flows[j].flow) :: Timely(Passes(log, j), flows[j].pass)
  }

  ghost predicate FlatNode(flows: seq<Submitted>, node: Node) {
    node.owner < |flows| &&
    (Flat(flows[node.owner].flow) && node.act.Some? ==>
       node.runner == Center && node.act.value.Call? && FlatStage(node.act.value.stage))
  }

  /** A task of a flat flow is due in the pass after the one that scheduled it. */
  ghost predicate DueIn(flows: seq<Submitted>, log: seq<Event>, t: Task, pass: nat) {
    t.owner < |flows| &&
    (Flat(flows[t.owner].flow) ==>
       pass == flows[t.owner].pass + 1 + (if t.Start? then 0 else |Passes(log, t.owner)| + 1)
       && (t.Start? ==> Passes(log, t.owner) == []))
  }

  ghost predicate QueueDue(flows: seq<Submitted>, log: seq<Event>, queue: seq<Task>, len: nat, pass: nat) {
    len <= |queue| && forall i | 0 <= i < |queue| :: DueIn(flows, log, queue[i], if i < len then pass else pass + 1)
  }

  ghost predicate StackDue(flows: seq<Submitted>, log: seq<Event>, stack: seq<Task>, pass: nat) {
    forall i | 0 <= i < |stack| :: DueIn(flows, log, stack[i], pass)
  }

  ghost predicate NodesFlat(flows: seq<Submitted>, nodes: seq<Node>) {
    forall i | 0 <= i < |nodes| :: FlatNode(flows, nodes[i])
  }

  ghost predicate PassInv(s: State) {
    && QueueDue(s.flows, s.log, s.queue, s.len, s.pass) && StackDue(s.flows, s.log, s.stack, s.pass)
    && NodesFlat(s.flows, s.nodes) && AllTimely(s.flows, s.log)
  }

  lemma PassSchedule(s: State, r: Runner, t: Task)
    requires PassInv(s) && t.owner < |s.flows|
    requires Flat(s.flows[t.owner].flow) ==> r == Center && DueIn(s.flows, s.log, t, s.pass + 1)
    ensures PassInv(Schedule(s, r, t))
  {
    hide Flat, AllTimely, NodesFlat, Passes;
  }

  /** A flat flow's argument arrives during the pass before the one its node's action will run in. */
  lemma PassTrigger(s: State, n: nat, arg: Arg)
    requires PassInv(s) && n < |s.nodes|
    requires var j := s.nodes[n].owner; j < |s.flows| && Flat(s.flows[j].flow) ==>
      s.pass == s.flows[j].pass + |Passes(s.log, j)| + 1
    ensures PassInv(Trigger(s, n, arg))
  {
    hide Flat, AllTimely, Passes;
    assert FlatNode(s.flows, s.nodes[n]);
    if !s.nodes[n].called {
      var s' := s.(nodes := Trigger(s, n, arg).nodes);
      forall i | 0 <= i < |s'.nodes|
        ensures FlatNode(s.flows, s'.nodes[i])
      {
        assert FlatNode(s.flows, s.nodes[i]);
      }
      if s.nodes[n].act.Some? { PassSchedule(s', s.nodes[n].runner, Act(n, s.nodes[n].owner)); }
    }
  }

  /** Calls for one submission leave the others' tasks where they were. */
  lemma DueFrame(flows: seq<Submitted>, log: seq<Event>, e: Event, tasks: seq<Task>)
    requires Owners(tasks)[e.owner] == 0
    ensures forall i | 0 <= i < |tasks| :: Passes(log + [e], tasks[i].owner) == Passes(log, tasks[i].owner)
  {
    forall i | 0 <= i < |tasks|
      ensures Passes(log + [e], tasks[i].owner) == Passes(log, tasks[i].owner)
    {
      OwnersHas(tasks, i);
      PassesPush(log, e, tasks[i].owner);
    }
  }

  lemma PassLog(s: State, e: Event)
    requires PassInv(s) && Busy(s)[e.owner] == 0 && e.owner < |s.flows| && e.pass == s.pass
    requires Flat(s.flows[e.owner].flow) ==> s.pass == s.flows[e.owner].pass + |Passes(s.log, e.owner)| + 2
    ensures PassInv(s.(log := s.log + [e]))
    ensures |Passes(s.log + [e], e.owner)| == |Passes(s.log, e.owner)| + 1
  {
    hide Flat, NodesFlat, Passes, Owners;
    assert Busy(s)[e.owner] == Owners(s.queue)[e.owner] + Owners(s.stack)[e.owner];
    DueFrame(s.flows, s.log, e, s.queue);
    DueFrame(s.flows, s.log, e, s.stack);
    PassesPush(s.log, e, e.owner);
    forall j | 0 <= j < |s.flows| && Flat(s.flows[j].flow)
      ensures Timely(Passes(s.log + [e], j), s.flows[j].pass)
    {
      PassesPush(s.log, e, j);
    }
  }

  lemma PassBuild(s: State, f: Chain, last: Node)
    requires PassInv(s) && FlatNode(s.flows, last)
    requires Flat(s.flows[last.owner].flow) ==> forall i | 0 <= i < |f.stages| :: FlatStage(f.stages[i])
    requires Flat(s.flows[last.owner].flow) ==>
               f.runner == Center && s.pass == s.flows[last.owner].pass && Passes(s.log, last.owner) == []
    ensures PassInv(Launch(s, f, last))
  {
    hide Flat, AllTimely, Passes;
    var s' := s.(nodes := s.nodes + Build(|s.nodes|, f.stages, last));
    forall i | 0 <= i < |s'.nodes|
      ensures FlatNode(s.flows, s'.nodes[i])
    {
      if i < |s.nodes| { assert FlatNode(s.flows, s.nodes[i]); }
    }
    PassSchedule(s', f.runner, Start(|s.nodes|, last.owner, f.init));
  }

  /** Where the action of a submission's task leads is its own node. */
  lemma KnowNext(s: State, a: Aux, t: Task)
    requires Inv(s, a, t.owner) && TaskOk(s.nodes, a, t) && t.Act?
    ensures t.n < |s.nodes| && s.nodes[t.n].owner == t.owner < |s.flows| && s.nodes[t.n].act.Some? &&
      Busy(s)[t.owner] == 0
    ensures var act := s.nodes[t.n].act.value;
            var n := if act.Call? then act.next else act.target;
            n < |s.nodes| && s.nodes[n].owner == t.owner
  {
    KnowAct(s, a, t);
    var path := a.paths[t.owner];
    assert path[1..][0] == path[1];
  }

  lemma PassPerform(s: State, a: Aux, t: Task)
    requires PassInv(s) && Inv(s, a, t.owner) && TaskOk(s.nodes, a, t) && t.Act? && DueIn(s.flows, s.log, t, s.pass)
    ensures t.n < |s.nodes| && PassInv(Perform(s, t.n))
  {
    hide Inv, TaskOk, Flat, Busy, QueueDue, StackDue, Trigger, Launch, Passes, AllTimely;
    KnowNext(s, a, t);
    var n, node := t.n, s.nodes[t.n];
    assert FlatNode(s.flows, node);
    var s1 := s.(ran := s.ran + [n]);
    match node.act
    case Some(Relay(target)) => PassTrigger(s1, target, node.value);
    case Some(Call(stage, next)) =>
      var o := stage.body(node.value);
      var e := Event(node.owner, stage.tag, node.value, s.pass);
      assert Busy(s1) == Busy(s) by { BusyRan(s, s1); }
      PassLog(s1, e);
      var s2 := s1.(log := s.log + [e]);
      if o.Nested? {
        PassBuild(s2, o.flow, Node(false, Some(Relay(next)), o.flow.tail, Mono, node.owner));
      } else {
        PassTrigger(s2, next, Outward(o));
      }
  }

  lemma BusyRan(s: State, s': State)
    requires s'.queue == s.queue && s'.stack == s.stack
    ensures Busy(s') == Busy(s)
  {
  }

  lemma PassRun(s: State, a: Aux)
    requires PassInv(s) && Inv(s, a, -1)
    ensures PassInv(Next(s, Run))
  {
    hide Inv, TaskOk, Flat, QueueDue, NodesFlat, Trigger, Perform, Passes, AllTimely;
    if s.stack != [] {
      var t := s.stack[|s.stack| - 1];
      var s' := TakeTop(s, a);
      assert DueIn(s.flows, s.log, t, s.pass);
      KnowTask(s.nodes, a, t);
      if t.Start? { PassTrigger(s', t.n, t.arg); } else { PassPerform(s', a, t); }
    }
  }

  lemma PassSubmit(s: State, a: Aux, f: Chain)
    requires PassInv(s) && Inv(s, a, -1)
    ensures PassInv(Next(s, Submit(f)))
  {
    hide Mean, Of, Owners, TaskOk, OnTrack, Threads;
    var j := |s.flows|;
    var s' := s.(flows := s.flows + [Submitted(f, s.pass)]);
    PassesNone(s.log, j);
    PassEnroll(s, s', f);
    hide PassInv, Passes;
    PassBuild(s', f, Node(false, None, f.tail, Mono, j));
  }

  lemma PassEnroll(s: State, s': State, f: Chain)
    requires PassInv(s) && s' == s.(flows := s.flows + [Submitted(f, s.pass)]) && Passes(s.log, |s.flows|) == []
    ensures PassInv(s')
  {
    hide Flat, Passes, FlatStage;
    forall i | 0 <= i < |s.nodes|
      ensures FlatNode(s'.flows, s.nodes[i])
    {
      assert FlatNode(s.flows, s.nodes[i]);
    }
    forall i, pass | 0 <= i < |s.queue| && DueIn(s.flows, s.log, s.queue[i], pass)
      ensures DueIn(s'.flows, s.log, s.queue[i], pass)
    {
    }
    forall i | 0 <= i < |s.stack|
      ensures DueIn(s'.flows, s.log, s.stack[i], s.pass)
    {
      assert DueIn(s.flows, s.log, s.stack[i], s.pass);
    }
  }

  lemma {:induction false} PassesNone(log: seq<Event>, j: nat)
    requires forall i | 0 <= i < |log| :: log[i].owner < j
    ensures Passes(log, j) == []
  {
    if log != [] { PassesNone(log[..|log| - 1], j); }
  }

  lemma PassMove(s: State, step: Step)
    requires PassInv(s) && (step == Begin || step == Pick)
    ensures PassInv(Next(s, step))
  {
    hide DueIn, AllTimely, NodesFlat;
  }

  lemma {:induction false} ExecPasses(steps: seq<Step>)
    requires Unpoked(steps)
    ensures PassInv(Exec(steps))
  {
    hide PassInv, Inv;
    if steps == [] {
      InitPasses();
    } else {
      var before, last := steps[..|steps| - 1], steps[|steps| - 1];
      ExecPasses(before);
      var s := Exec(before);
      var a := ExecInv(before);
      match last
      case Submit(f) => PassSubmit(s, a, f);
      case Begin => PassMove(s, Begin);
      case Pick => PassMove(s, Pick);
      case Run => PassRun(s, a);
    }
  }

  lemma InitPasses()
    ensures PassInv(Init())
  {
  }

  /**
   Whatever else is queued, the k-th stage of a flat chain, counting from 1, runs in the
   (k + 1)-th pass after its submission.
   */
  lemma StagePerPass(steps: seq<Step>, j: nat, k: nat)
    requires Unpoked(steps) && j < |Exec(steps).flows| && Flat(Exec(steps).flows[j].flow)
    requires 1 <= k <= |Passes(Exec(steps).log, j)|
    ensures Passes(Exec(steps).log, j)[k - 1] == Exec(steps).flows[j].pass + k + 1
  {
    hide Exec, Passes;
    ExecPasses(steps);
    var s := Exec(steps);
    assert Timely(Passes(s.log, j), s.flows[j].pass);
  }
}
