/**
 What calls come to in the whole queue, with any number of producers of both kinds sharing the
 blocks: the values of an implicit producer are those its thread passed in, a claimed element is
 delivered, and an enqueue goes through unless there is no room.
 */
module Deliveries {
  import opened Wrappers
  import opened BlockPool
  import E = ExplicitProducer
  import I = ImplicitProducer
  import Ledger

  /** The state before step n of a schedule. */
  ghost function Before(c: Config, acts: seq<Act>, n: nat): (s: State)
    requires E.Sane(c.queue) && n <= |acts|
    ensures InOrder(c, s) && Shaped(s)
  {
    Exec(c, acts[..n])
  }

  lemma StepOf(c: Config, acts: seq<Act>, n: nat)
    requires E.Sane(c.queue) && n < |acts|
    ensures Before(c, acts, n + 1) == Next(c, Before(c, acts, n), acts[n])
  {
    hide Next, InOrder, Shaped;
    assert acts[..n + 1][..n] == acts[..n];
  }

  // ---------------------------------------------------------------- how a step moves one implicit producer

  datatype Move =
    | Stay
    | Begun(v: I.Value)
    | Claimed
    | Went(ok: bool, block: Option<Block>)
    | Consumes(i: nat)

  function After(c: Config, p: I.Prod, m: I.Mem, move: Move): I.Prod
    requires E.Sane(c.queue) && I.Shape(p)
  {
    match move
    case Stay => p
    case Begun(v) => I.Begin(c.queue, p, v)
    case Claimed => I.Claim(p)
    case Went(ok, block) => I.Produced(c.queue, p, m, ok, block).0
    case Consumes(i) => I.Consumed(c.queue, p, m, i).0
  }

  /** What step `act` is to implicit producer p. */
  function MoveOf(c: Config, s: State, act: Act, p: nat): Move
    requires p < |s.prods| == |s.reqs|
  {
    match act
    case Begin(x, v) => if x == p then Begun(v) else Stay
    case Claim(x) => if x == p then Claimed else Stay
    case Consume(x, i) => if x == p then Consumes(i) else Stay
    case Produce(x, ok, choice) =>
      if x != p then Stay
      else if !s.prods[p].ppc.Take? then Went(ok, None)
      else
        var got := Drawn(c, s, s.reqs[p], choice).got;
        if got.None? then Stay else Went(ok, got.value)
    case _ => Stay
  }

  lemma Moves(c: Config, s: State, act: Act, p: nat)
    requires E.Sane(c.queue) && Shaped(s)
    ensures var s' := Next(c, s, act);
      && |s.prods| <= |s'.prods|
      && (p < |s.prods| ==> s'.prods[p] == After(c, s.prods[p], s.mem, MoveOf(c, s, act, p)))
      && (|s.prods| <= p < |s'.prods| ==> s'.prods[p] == I.Init(c.queue))
  {
    hide E.Next, E.Shape, I.Shape, Drawn, I.Produced, I.Consumed, I.Begin, I.Claim, E.Exec;
  }

  /** What a move does to the values and to the dequeuers. */
  lemma MoveValues(c: Config, p: I.Prod, m: I.Mem, move: Move)
    requires E.Sane(c.queue) && I.Shape(p)
    ensures var p' := After(c, p, m, move);
      && |p.deq| <= |p'.deq| && p.vals <= p'.vals
      && (p.ppc == I.Ready ==>
        p'.vals == p.vals && if move.Begun? then p'.ppc != I.Ready && p'.ppc.v == move.v else p'.ppc == I.Ready)
      && (p.ppc != I.Ready && p'.ppc != I.Ready ==> p'.vals == p.vals && p'.ppc.v == p.ppc.v)
      && (p.ppc != I.Ready && p'.ppc == I.Ready ==> p'.vals == p.vals || p'.vals == p.vals + [p.ppc.v])
  {
    hide I.Produced, I.Consumed, I.Shape;
    match move
    case Went(ok, block) => I.ProducedValues(c.queue, p, m, ok, block);
    case Consumes(i) => I.ConsumedSame(c.queue, p, m, i);
    case _ =>
  }

  // ---------------------------------------------------------------- values

  /** What a step is to the calls of implicit producer p, told from the schedule and what it shows outside. */
  function EventOf(s: State, act: Act, s': State, p: nat): Ledger.Event<I.Value>
    requires p < |s.prods| ==> p < |s'.prods|
  {
    if p >= |s.prods| then Ledger.Quiet
    else if s.prods[p].ppc == I.Ready then if act.Begin? && act.p == p then Ledger.Called(act.v) else Ledger.Quiet
    else if s'.prods[p].ppc != I.Ready then Ledger.Quiet
    else if |s'.prods[p].vals| > |s.prods[p].vals| then Ledger.Published
    else Ledger.Refused
  }

  ghost function Events(c: Config, acts: seq<Act>, p: nat): (r: seq<Ledger.Event<I.Value>>)
    requires E.Sane(c.queue)
    ensures |r| == |acts|
  {
    if acts == [] then []
    else
      var n := |acts| - 1;
      var s := Exec(c, acts[..n]);
      Moves(c, s, acts[n], p);
      Events(c, acts[..n], p) + [EventOf(s, acts[n], Exec(c, acts), p)]
  }

  lemma {:induction false} NoneYet(c: Config, acts: seq<Act>, p: nat)
    requires E.Sane(c.queue) && p >= |Exec(c, acts).prods|
    ensures Ledger.Values(Events(c, acts, p)) == [] && Ledger.InHand(Events(c, acts, p)) == None
  {
    hide Next, InOrder, Shaped;
    if acts != [] {
      var n := |acts| - 1;
      Moves(c, Exec(c, acts[..n]), acts[n], p);
      NoneYet(c, acts[..n], p);
      Ledger.Then(Events(c, acts[..n], p), Ledger.Quiet);
    }
  }

  /**
   In every run the values an implicit producer has published are those passed to its thread's
   calls of `enqueue` that published, in the order of the calls; a call still open has its value
   in hand.
   */
  lemma {:induction false} ValuesSent(c: Config, acts: seq<Act>, p: nat)
    requires E.Sane(c.queue) && p < |Exec(c, acts).prods|
    ensures var x := Exec(c, acts).prods[p];
      && x.vals == Ledger.Values(Events(c, acts, p))
      && Ledger.InHand(Events(c, acts, p)) == if x.ppc == I.Ready then None else Some(x.ppc.v)
  {
    hide Next, InOrder, I.Shape, E.Shape, After, MoveOf;
    assert acts != [] by { NoProducers(c); }
    var n := |acts| - 1;
    var s, s' := Exec(c, acts[..n]), Exec(c, acts);
    Moves(c, s, acts[n], p);
    var e := EventOf(s, acts[n], s', p);
    Ledger.Then(Events(c, acts[..n], p), e);
    if p < |s.prods| {
      ValuesSent(c, acts[..n], p);
      MoveValues(c, s.prods[p], s.mem, MoveOf(c, s, acts[n], p));
      BegunBy(c, s, acts[n], p);
    } else {
      NoneYet(c, acts[..n], p);
    }
  }

  lemma BegunBy(c: Config, s: State, act: Act, p: nat)
    requires p < |s.prods| == |s.reqs|
    ensures var move := MoveOf(c, s, act, p);
      (move.Begun? <==> act.Begin? && act.p == p) && (move.Begun? ==> move.v == act.v)
  {
    hide Drawn;
  }

  lemma NoProducers(c: Config)
    requires E.Sane(c.queue)
    ensures Exec(c, []).prods == []
  {
  }

  /** Value x is what the call of `enqueue` passed that was the i-th of producer p to publish. */
  ghost predicate SentAs(c: Config, acts: seq<Act>, p: nat, i: nat, x: I.Value)
    requires E.Sane(c.queue)
  {
    var at := Ledger.Sent(Events(c, acts, p));
    i < |at| && at[i] < |acts| && acts[at[i]] == Begin(p, x)
  }

  lemma {:induction false} EventAt(c: Config, acts: seq<Act>, p: nat, i: nat)
    requires E.Sane(c.queue) && i < |acts| && Events(c, acts, p)[i].Called?
    ensures acts[i] == Begin(p, Events(c, acts, p)[i].v)
  {
    hide Next, InOrder, Shaped, Exec;
    var n := |acts| - 1;
    if i < n { EventAt(c, acts[..n], p, i); }
  }

  /** Every value returned is the one passed to the call of `enqueue` that published it under its number. */
  lemma ResultsRight(c: Config, acts: seq<Act>, p: nat, i: nat)
    requires E.Sane(c.queue) && p < |Exec(c, acts).prods| && i < |Exec(c, acts).prods[p].deq|
    requires Exec(c, acts).prods[p].deq[i].Done?
    ensures SentAs(c, acts, p, i, Exec(c, acts).prods[p].deq[i].x)
  {
    hide Exec, I.TailKeyed, I.In;
    AllSound(c, acts, p);
    ValuesSent(c, acts, p);
    var events := Events(c, acts, p);
    Ledger.ValuesSent(events);
    assert I.DequeuerSound(c.queue, Exec(c, acts).prods[p], Exec(c, acts).mem, i);
    EventAt(c, acts, p, Ledger.Sent(events)[i]);
  }

  // ---------------------------------------------------------------- a claimed element is delivered

  /** Steps of the dequeuer of element i of producer p. */
  function Turns(acts: seq<Act>, p: nat, i: nat): nat {
    if acts == [] then 0
    else Turns(acts[..|acts| - 1], p, i) + if acts[|acts| - 1] == Consume(p, i) then 1 else 0
  }

  /** One move, as far as dequeuer i is concerned. */
  lemma MoveAhead(c: Config, p: I.Prod, m: I.Mem, a: I.Aux, move: Move, i: nat)
    requires E.Sane(c.queue) && I.Shape(p) && I.Inv(c.queue, p, m, a) && i < |p.deq|
    ensures var p' := After(c, p, m, move);
      && i < |p'.deq|
      && if move != Consumes(i) then p'.deq[i] == p.deq[i]
         else if p.deq[i].Done? then p'.deq[i] == p.deq[i]
         else I.Ahead(p'.deq[i]) < I.Ahead(p.deq[i])
  {
    hide I.Inv, I.Produced, I.Shape, I.Ahead;
    match move
    case Went(ok, block) => I.ProducedValues(c.queue, p, m, ok, block);
    case Consumes(k) =>
      if k != i {
        hide I.Consumed;
        I.ConsumedOthers(c.queue, p, m, k, i);
      } else if !p.deq[i].Done? {
        hide I.Consumed;
        I.ConsumerNearer(c.queue, p, m, a, i);
      }
    case _ =>
  }

  lemma AheadStep(c: Config, s: State, act: Act, p: nat, i: nat)
    requires E.Sane(c.queue) && InOrder(c, s) && Shaped(s) && p < |s.prods| && i < |s.prods[p].deq|
    ensures var s' := Next(c, s, act);
      && p < |s'.prods| && i < |s'.prods[p].deq| && s.prods[p].vals <= s'.prods[p].vals
      && var q, q' := s.prods[p].deq[i], s'.prods[p].deq[i];
      && (act != Consume(p, i) || q.Done? ==> q' == q)
      && (act == Consume(p, i) && !q.Done? ==> I.Ahead(q') < I.Ahead(q))
  {
    hide Next, Inv, I.Shape, E.Shape, After, MoveOf, I.Ahead;
    var auxs :| Inv(c, s, auxs);
    KnowProd(c, s, auxs, p);
    Moves(c, s, act, p);
    MoveValues(c, s.prods[p], s.mem, MoveOf(c, s, act, p));
    MoveAhead(c, s.prods[p], s.mem, auxs[p], MoveOf(c, s, act, p), i);
    ConsumesBy(c, s, act, p, i);
  }

  lemma KnowProd(c: Config, s: State, auxs: seq<I.Aux>, p: nat)
    requires E.Sane(c.queue) && Inv(c, s, auxs) && p < |s.prods|
    ensures p < |auxs| && I.Inv(c.queue, s.prods[p], s.mem, auxs[p]) && I.Shape(s.prods[p])
  {
    hide I.Inv, I.Shape, Placed, Reached;
    I.InvShape(c.queue, s.prods[p], s.mem, auxs[p]);
  }

  lemma ConsumesBy(c: Config, s: State, act: Act, p: nat, i: nat)
    requires p < |s.prods| == |s.reqs|
    ensures MoveOf(c, s, act, p) == Consumes(i) <==> act == Consume(p, i)
  {
    hide Drawn;
  }

  /** Step j of the schedule claims an element of producer p while there is one. */
  ghost predicate Claims(c: Config, acts: seq<Act>, j: nat, p: nat)
    requires E.Sane(c.queue)
  {
    && j < |acts| && acts[j] == Claim(p) && p < |Before(c, acts, j).prods|
    && |Before(c, acts, j).prods[p].deq| < |Before(c, acts, j).prods[p].vals|
  }

  /** What has become of dequeuer i by step m: it is done, or as far as its own steps have brought it. */
  ghost predicate Underway(c: Config, acts: seq<Act>, j: nat, p: nat, i: nat, m: nat)
    requires E.Sane(c.queue) && Claims(c, acts, j, p)
  {
    && j < m <= |acts| && p < |Before(c, acts, m).prods| && i < |Before(c, acts, m).prods[p].deq|
    && Before(c, acts, j).prods[p].vals <= Before(c, acts, m).prods[p].vals
    && var q := Before(c, acts, m).prods[p].deq[i];
    q.Done? || Turns(acts[j + 1..m], p, i) + I.Ahead(q) <= 8
  }

  lemma ClaimBegins(c: Config, acts: seq<Act>, j: nat, p: nat)
    requires E.Sane(c.queue) && Claims(c, acts, j, p)
    ensures Underway(c, acts, j, p, |Before(c, acts, j).prods[p].deq|, j + 1)
  {
    hide Next, InOrder, Exec;
    StepOf(c, acts, j);
    Moves(c, Before(c, acts, j), acts[j], p);
    assert acts[j + 1..j + 1] == [];
  }

  lemma {:induction false} ClaimGoesOn(c: Config, acts: seq<Act>, j: nat, p: nat, m: nat)
    requires E.Sane(c.queue) && Claims(c, acts, j, p) && j < m <= |acts|
    ensures Underway(c, acts, j, p, |Before(c, acts, j).prods[p].deq|, m)
    decreases m
  {
    hide Next, InOrder, Shaped, Before, I.Ahead;
    if m == j + 1 {
      ClaimBegins(c, acts, j, p);
    } else {
      ClaimGoesOn(c, acts, j, p, m - 1);
      var i := |Before(c, acts, j).prods[p].deq|;
      StepOf(c, acts, m - 1);
      AheadStep(c, Before(c, acts, m - 1), acts[m - 1], p, i);
      assert acts[j + 1..m][..m - j - 2] == acts[j + 1..m - 1];
      DoneIs(Before(c, acts, m).prods[p].deq[i]);
    }
  }

  lemma DoneIs(q: I.CPc)
    ensures I.Ahead(q) == 0 <==> q.Done?
  {
  }

  /**
   In every run, a claim made while there is an element gets it: after at most eight steps of its
   own, whatever all the others do, the dequeuer has returned the value published under its number.
   */
  lemma ClaimDelivers(c: Config, acts: seq<Act>, j: nat, p: nat, m: nat)
    requires E.Sane(c.queue) && Claims(c, acts, j, p) && j < m <= |acts|
    requires Turns(acts[j + 1..m], p, |Before(c, acts, j).prods[p].deq|) >= 8
    ensures var i := |Before(c, acts, j).prods[p].deq|;
      && p < |Before(c, acts, m).prods| && i < |Before(c, acts, m).prods[p].deq|
      && var q := Before(c, acts, m).prods[p].deq[i];
      q.Done? && q.x == Before(c, acts, j).prods[p].vals[i]
  {
    hide Exec, I.Ahead, I.TailKeyed, I.In;
    ClaimGoesOn(c, acts, j, p, m);
    var i, s := |Before(c, acts, j).prods[p].deq|, Before(c, acts, m);
    DoneIs(s.prods[p].deq[i]);
    AllSound(c, acts[..m], p);
    assert I.DequeuerSound(c.queue, s.prods[p], s.mem, i);
  }

  // ---------------------------------------------------------------- what requisition_block answers

  /** Whoever has turned to the free list has seen the first pool used up. */
  ghost predicate Spent(c: Config, s: State) {
    && (forall p | 0 <= p < |s.reqs| :: s.reqs[p] == TryFree ==> s.next >= c.size)
    && (forall e | 0 <= e < |s.ereqs| :: s.ereqs[e] == TryFree ==> s.next >= c.size)
  }

  lemma SpentStep(c: Config, s: State, act: Act)
    requires E.Sane(c.queue) && Shaped(s) && Spent(c, s)
    ensures Spent(c, Next(c, s, act))
  {
    hide E.Next, E.Shape, I.Shape, I.Produced, I.Consumed, I.Begin, I.Claim, E.Exec;
  }

  lemma {:induction false} AllSpent(c: Config, acts: seq<Act>)
    requires E.Sane(c.queue)
    ensures Spent(c, Exec(c, acts))
  {
    hide Next, InOrder, Shaped;
    if acts != [] {
      AllSpent(c, acts[..|acts| - 1]);
      SpentStep(c, Exec(c, acts[..|acts| - 1]), acts[|acts| - 1]);
    }
  }

  function Left(req: Req): nat {
    match req
    case Look => 2
    case FetchAdd => 1
    case TryFree => 0
  }

  ghost predicate Asking(s: State, w: Who, req: Req) {
    match w
    case Implicit(p) => p < |s.prods| == |s.reqs| && s.prods[p].ppc.Take? && s.reqs[p] == req
    case Explicit(e) => e < |s.exps| == |s.ereqs| && s.exps[e].ppc.Requisition? && s.ereqs[e] == req
  }

  /**
   In every run a producer that asks for a block goes on to the next source or is answered, unless
   another one has just taken the node it was after; it is given a block that was up for grabs and
   no longer is; and it is told that there is none only when the first pool is used up and neither
   the free list nor the allocator comes up with one.
   */
  lemma RequisitionAnswers(c: Config, acts: seq<Act>, w: Who, req: Req, choice: Choice)
    requires E.Sane(c.queue) && Asking(Exec(c, acts), w, req)
    ensures var s := Exec(c, acts);
      var d := Drawn(c, s, req, choice);
      match d.got
      case None => Left(d.req) < Left(req) || (req == TryFree && choice.Get? && choice.b !in s.free)
      case Some(None) => s.next >= c.size && choice == Nothing
      case Some(Some(b)) => Available(c, s, b) && !Available(c, Pool(s, d), b)
  {
    hide Exec, Inv;
    var s := Exec(c, acts);
    AllSpent(c, acts);
    var auxs :| Inv(c, s, auxs);
    DrawMoves(c, s, auxs, Pool(s, Drawn(c, s, req, choice)), req, choice);
  }

  /** Why an implicit producer's call gives up, if step `act` makes it do so. */
  ghost predicate Reason(c: Config, s: State, act: Act, p: nat)
    requires E.Sane(c.queue) && Shaped(s) && p < |s.prods|
  {
    && act.Produce? && act.p == p && |s.prods[p].vals| % c.queue.B == 0
    && var x := s.prods[p];
    match x.ppc
    case Room(_) => |x.vals| + c.queue.B - |x.deq| >= c.queue.W / 2
    case Grow(_) => !act.ok || (c.queue.W / c.queue.B) % (2 * I.Last(x).cap) != 0
    case Take(_, _) => s.next >= c.size && act.choice == Nothing
    case _ => false
  }

  /**
   In every run a call of `enqueue` on an implicit producer gives up only at the start of a block,
   and only because the range, the index, or the blocks have run out.
   */
  lemma GivesUpFor(c: Config, acts: seq<Act>, n: nat, p: nat)
    requires E.Sane(c.queue) && n < |acts| && p < |Before(c, acts, n).prods| && p < |Before(c, acts, n + 1).prods|
    requires var x, x' := Before(c, acts, n).prods[p], Before(c, acts, n + 1).prods[p];
      x.ppc != I.Ready && !I.GivingUp(x.ppc) && (I.GivingUp(x'.ppc) || (x'.ppc == I.Ready && x'.vals == x.vals))
    ensures Reason(c, Before(c, acts, n), acts[n], p)
  {
    hide Exec, Next, Inv, I.Produced, I.Consumed, I.Shape, E.Shape;
    var s, act := Before(c, acts, n), acts[n];
    StepOf(c, acts, n);
    Moves(c, s, act, p);
    AllSpent(c, acts[..n]);
    var auxs :| Inv(c, s, auxs);
    KnowProd(c, s, auxs, p);
    var x := s.prods[p];
    if act.Consume? { I.ConsumedSame(c.queue, x, s.mem, act.i); }
    var move := MoveOf(c, s, act, p);
    if move.Went? { I.GivesUp(c.queue, x, s.mem, auxs[p], move.ok, move.block); }
  }

  // ---------------------------------------------------------------- an enqueue goes through

  /** A block is to be had: from the free list, or a new one. */
  ghost predicate ToBeHad(s: State, choice: Choice) { choice == Create || (choice.Get? && choice.b in s.free) }

  /** The producer goes on alone, and finds a block when it asks for one. */
  function Alone(n: nat, p: nat, choice: Choice): seq<Act> { seq(n, _ => Produce(p, true, choice)) }

  ghost function Rank(s: State, p: nat): nat
    requires p < |s.prods| == |s.reqs|
  {
    I.Distance(s.prods[p].ppc) + if s.prods[p].ppc.Take? then Left(s.reqs[p]) else 0
  }

  /** Nothing stands in the way of the call that producer p is in. */
  ghost predicate Clear(c: Config, s: State, p: nat, choice: Choice)
    requires E.Sane(c.queue) && Shaped(s)
  {
    && p < |s.prods| && s.prods[p].ppc != I.Ready && I.WillDo(c.queue, s.prods[p])
    && (I.Distance(s.prods[p].ppc) >= 5 ==> ToBeHad(s, choice))
  }

  ghost predicate Nearer(c: Config, s: State, s': State, p: nat, choice: Choice)
    requires E.Sane(c.queue) && Shaped(s) && Shaped(s') && p < |s.prods| <= |s'.prods| && s.prods[p].ppc != I.Ready
  {
    && Rank(s', p) < Rank(s, p)
    && if s'.prods[p].ppc == I.Ready then s'.prods[p].vals == s.prods[p].vals + [s.prods[p].ppc.v]
       else Clear(c, s', p, choice) && s'.prods[p].vals == s.prods[p].vals && s'.prods[p].ppc.v == s.prods[p].ppc.v
  }

  lemma StepNearer(c: Config, s: State, p: nat, choice: Choice)
    requires E.Sane(c.queue) && InOrder(c, s) && Shaped(s) && Clear(c, s, p, choice) && !s.prods[p].ppc.Take?
    requires Shaped(Next(c, s, Produce(p, true, choice)))
    ensures |s.prods| <= |Next(c, s, Produce(p, true, choice)).prods|
    ensures Nearer(c, s, Next(c, s, Produce(p, true, choice)), p, choice)
  {
    hide Next, Inv, I.Produced, I.Shape, E.Shape, I.WillDo;
    var auxs :| Inv(c, s, auxs);
    KnowProd(c, s, auxs, p);
    Moves(c, s, Produce(p, true, choice), p);
    OwnSteps(c, s, p, choice);
    I.Nearer(c.queue, s.prods[p], s.mem, auxs[p], None);
  }

  /** A step that asks for no block leaves the free list alone. */
  lemma OwnSteps(c: Config, s: State, p: nat, choice: Choice)
    requires E.Sane(c.queue) && Shaped(s) && p < |s.prods| && !s.prods[p].ppc.Take?
    ensures Next(c, s, Produce(p, true, choice)).free == s.free
  {
    hide I.Produced, I.Shape, E.Shape;
  }

  /** Nor does one that goes on to the next source. */
  lemma Asks(c: Config, s: State, p: nat, choice: Choice)
    requires E.Sane(c.queue) && Shaped(s) && p < |s.prods| && s.prods[p].ppc.Take? && ToBeHad(s, choice)
    ensures var s', d := Next(c, s, Produce(p, true, choice)), Drawn(c, s, s.reqs[p], choice);
      if d.got.None? then s'.free == s.free && p < |s'.reqs| && s'.reqs[p] == d.req && Left(d.req) < Left(s.reqs[p])
      else d.got.value.Some?
  {
    hide I.Produced, I.Shape, E.Shape;
  }

  lemma TakeNearer(c: Config, s: State, p: nat, choice: Choice)
    requires E.Sane(c.queue) && InOrder(c, s) && Shaped(s) && Clear(c, s, p, choice) && s.prods[p].ppc.Take?
    requires Shaped(Next(c, s, Produce(p, true, choice)))
    ensures |s.prods| <= |Next(c, s, Produce(p, true, choice)).prods|
    ensures Nearer(c, s, Next(c, s, Produce(p, true, choice)), p, choice)
  {
    hide Next, Inv, I.Produced, I.Shape, E.Shape, I.WillDo, Drawn;
    var auxs :| Inv(c, s, auxs);
    KnowProd(c, s, auxs, p);
    Moves(c, s, Produce(p, true, choice), p);
    Asks(c, s, p, choice);
    var d := Drawn(c, s, s.reqs[p], choice);
    if d.got.Some? { I.Nearer(c.queue, s.prods[p], s.mem, auxs[p], d.got.value); }
  }

  lemma Append(c: Config, acts: seq<Act>, act: Act)
    requires E.Sane(c.queue)
    ensures Exec(c, acts + [act]) == Next(c, Exec(c, acts), act)
  {
    hide Next, InOrder, Shaped;
    assert (acts + [act])[..|acts|] == acts;
  }

  lemma {:induction false} Arrives(c: Config, acts: seq<Act>, p: nat, choice: Choice, n: nat)
    requires E.Sane(c.queue) && Clear(c, Exec(c, acts), p, choice) && Rank(Exec(c, acts), p) <= n
    ensures var s, s' := Exec(c, acts), Exec(c, acts + Alone(n, p, choice));
      && p < |s'.prods| && s'.prods[p].ppc == I.Ready
      && s'.prods[p].vals == s.prods[p].vals + [s.prods[p].ppc.v]
    decreases n
  {
    hide Next, InOrder, Exec, Clear, Rank;
    var s, act := Exec(c, acts), Produce(p, true, choice);
    KnowClear(c, s, p, choice);
    Append(c, acts, act);
    if s.prods[p].ppc.Take? { TakeNearer(c, s, p, choice); } else { StepNearer(c, s, p, choice); }
    assert acts + Alone(n, p, choice) == (acts + [act]) + Alone(n - 1, p, choice);
    if Exec(c, acts + [act]).prods[p].ppc == I.Ready {
      Stays(c, acts + [act], p, choice, n - 1);
    } else {
      Arrives(c, acts + [act], p, choice, n - 1);
    }
  }

  lemma KnowClear(c: Config, s: State, p: nat, choice: Choice)
    requires E.Sane(c.queue) && Shaped(s) && Clear(c, s, p, choice)
    ensures p < |s.prods| && s.prods[p].ppc != I.Ready
  {
  }

  lemma {:induction false} Stays(c: Config, acts: seq<Act>, p: nat, choice: Choice, n: nat)
    requires E.Sane(c.queue) && p < |Exec(c, acts).prods| && Exec(c, acts).prods[p].ppc == I.Ready
    ensures var s' := Exec(c, acts + Alone(n, p, choice));
      p < |s'.prods| && s'.prods[p] == Exec(c, acts).prods[p]
  {
    hide Next, InOrder, Exec, After;
    if n == 0 {
      assert acts + Alone(0, p, choice) == acts;
    } else {
      Stays(c, acts, p, choice, n - 1);
      var before, act := acts + Alone(n - 1, p, choice), Produce(p, true, choice);
      assert acts + Alone(n, p, choice) == before + [act];
      Append(c, before, act);
      Moves(c, Exec(c, before), act, p);
      ReadyStays(c, Exec(c, before), act, p);
    }
  }

  lemma ReadyStays(c: Config, s: State, act: Act, p: nat)
    requires E.Sane(c.queue) && Shaped(s) && p < |s.prods| && s.prods[p].ppc == I.Ready && act.Produce?
    ensures After(c, s.prods[p], s.mem, MoveOf(c, s, act, p)) == s.prods[p]
  {
    hide Drawn, I.Shape, E.Shape;
  }

  /**
   From every state of every run, a thread's call of `enqueue(v)` publishes v within twelve of its
   steps, if it is inside a block, or if there is room in the range and in the index and a block
   is to be had.
   */
  lemma EnqueuePublishes(c: Config, acts: seq<Act>, p: nat, v: I.Value, choice: Choice)
    requires E.Sane(c.queue) && p < |Exec(c, acts).prods| && Exec(c, acts).prods[p].ppc == I.Ready
    requires var s, x := Exec(c, acts), Exec(c, acts).prods[p];
      |x.vals| % c.queue.B == 0 ==>
        |x.vals| + c.queue.B - |x.deq| < c.queue.W / 2 && I.RoomInIndex(c.queue, x) && ToBeHad(s, choice)
    ensures var s' := Exec(c, acts + [Begin(p, v)] + Alone(12, p, choice));
      && p < |s'.prods| && s'.prods[p].ppc == I.Ready
      && s'.prods[p].vals == Exec(c, acts).prods[p].vals + [v]
  {
    hide InOrder, Exec, E.Shape, E.Sane;
    Append(c, acts, Begin(p, v));
    Arrives(c, acts + [Begin(p, v)], p, choice, 12);
  }

  // ---------------------------------------------------------------- the same for explicit producers

  function Advances(n: nat, e: nat, seesEmpty: bool, choice: Choice): seq<Act> {
    seq(n, _ => Advance(e, seesEmpty, choice))
  }

  ghost function RankOf(s: State, e: nat): nat
    requires e < |s.exps| == |s.ereqs|
  {
    var p := s.exps[e].ppc;
    E.Distance(p) + if p.TryReuse? || p.Room? then 2 else if p.Requisition? then Left(s.ereqs[e]) else 0
  }

  ghost predicate ClearFor(c: Config, s: State, e: nat, choice: Choice)
    requires E.Sane(c.queue) && Shaped(s)
  {
    && e < |s.exps| && s.exps[e].ppc != E.Ready && E.WillDo(c.queue, s.exps[e])
    && (E.Distance(s.exps[e].ppc) >= 6 ==> ToBeHad(s, choice))
  }

  ghost predicate NearerTo(c: Config, s: State, s': State, e: nat, choice: Choice)
    requires E.Sane(c.queue) && Shaped(s) && Shaped(s') && e < |s.exps| <= |s'.exps| && s.exps[e].ppc != E.Ready
  {
    && RankOf(s', e) < RankOf(s, e)
    && if s'.exps[e].ppc == E.Ready then s'.exps[e].enq == s.exps[e].enq + [s.exps[e].ppc.v]
       else ClearFor(c, s', e, choice) && s'.exps[e].enq == s.exps[e].enq && s'.exps[e].ppc.v == s.exps[e].ppc.v
  }

  lemma KnowExplicit(c: Config, s: State, e: nat) returns (a: E.Aux)
    requires E.Sane(c.queue) && InOrder(c, s) && e < |s.exps|
    ensures E.Inv(c.queue, s.exps[e], a)
  {
    hide Placed, I.Inv, E.Inv, E.Exec;
    var auxs :| Inv(c, s, auxs);
    var own :| s.exps[e] == E.Exec(c.queue, own);
    a := E.ExecInv(c.queue, own);
  }

  /** What an explicit producer's step does to the pool. */
  lemma AsksFor(c: Config, s: State, e: nat, seesEmpty: bool, choice: Choice)
    requires E.Sane(c.queue) && Shaped(s) && e < |s.exps| && ToBeHad(s, choice)
    ensures var s', d := Next(c, s, Advance(e, seesEmpty, choice)), Drawn(c, s, s.ereqs[e], choice);
      if !s.exps[e].ppc.Requisition? then s'.free == s.free
      else if d.got.None? then s'.free == s.free && e < |s'.ereqs| && Left(s'.ereqs[e]) < Left(s.ereqs[e])
      else d.got.value.Some?
  {
    hide E.Next, E.Shape, I.Shape;
  }

  lemma AdvanceNearer(c: Config, s: State, e: nat, seesEmpty: bool, choice: Choice)
    requires E.Sane(c.queue) && InOrder(c, s) && Shaped(s) && ClearFor(c, s, e, choice)
    requires Shaped(Next(c, s, Advance(e, seesEmpty, choice)))
    ensures |s.exps| <= |Next(c, s, Advance(e, seesEmpty, choice)).exps|
    ensures NearerTo(c, s, Next(c, s, Advance(e, seesEmpty, choice)), e, choice)
  {
    hide Next, InOrder, E.Inv, E.Next, E.Shape, I.Shape, E.WillDo, Drawn;
    var a := KnowExplicit(c, s, e);
    var act, x := Advance(e, seesEmpty, choice), s.exps[e];
    ExplicitMoves(c, s, act, e);
    if E.Distance(x.ppc) >= 6 { AsksFor(c, s, e, seesEmpty, choice); }
    var own := OwnStep(c, s, act, e);
    if own != [] {
      if x.ppc.Requisition? { FreshFor(c, s, e, choice); }
      E.Nearer(c.queue, x, a, seesEmpty, own[0].block);
    }
  }

  lemma FreshFor(c: Config, s: State, e: nat, choice: Choice)
    requires E.Sane(c.queue) && InOrder(c, s) && e < |s.exps| == |s.ereqs|
    requires Given(Drawn(c, s, s.ereqs[e], choice)).Some?
    ensures Given(Drawn(c, s, s.ereqs[e], choice)).value !in s.exps[e].next
  {
    hide Inv, Drawn;
    var auxs :| Inv(c, s, auxs);
    var d := Drawn(c, s, s.ereqs[e], choice);
    DrawMoves(c, s, auxs, Pool(s, d), s.ereqs[e], choice);
    NotHeld(c, s, auxs, Explicit(e), Given(d).value);
  }

  lemma {:induction false} ArrivesFor(c: Config, acts: seq<Act>, e: nat, seesEmpty: bool, choice: Choice, n: nat)
    requires E.Sane(c.queue) && ClearFor(c, Exec(c, acts), e, choice) && RankOf(Exec(c, acts), e) <= n
    ensures var s, s' := Exec(c, acts), Exec(c, acts + Advances(n, e, seesEmpty, choice));
      && e < |s'.exps| && s'.exps[e].ppc == E.Ready && s'.exps[e].enq == s.exps[e].enq + [s.exps[e].ppc.v]
    decreases n
  {
    hide Next, InOrder, Exec, ClearFor, RankOf;
    var s, act := Exec(c, acts), Advance(e, seesEmpty, choice);
    KnowClearFor(c, s, e, choice);
    Append(c, acts, act);
    AdvanceNearer(c, s, e, seesEmpty, choice);
    assert acts + Advances(n, e, seesEmpty, choice) == (acts + [act]) + Advances(n - 1, e, seesEmpty, choice);
    if Exec(c, acts + [act]).exps[e].ppc == E.Ready {
      StaysFor(c, acts + [act], e, seesEmpty, choice, n - 1);
    } else {
      ArrivesFor(c, acts + [act], e, seesEmpty, choice, n - 1);
    }
  }

  lemma KnowClearFor(c: Config, s: State, e: nat, choice: Choice)
    requires E.Sane(c.queue) && Shaped(s) && ClearFor(c, s, e, choice)
    ensures e < |s.exps| && s.exps[e].ppc != E.Ready
  {
  }

  lemma {:induction false} StaysFor(c: Config, acts: seq<Act>, e: nat, seesEmpty: bool, choice: Choice, n: nat)
    requires E.Sane(c.queue) && e < |Exec(c, acts).exps| && Exec(c, acts).exps[e].ppc == E.Ready
    ensures var s' := Exec(c, acts + Advances(n, e, seesEmpty, choice));
      e < |s'.exps| && s'.exps[e] == Exec(c, acts).exps[e]
  {
    hide Next, InOrder, Exec, OwnStep, E.Next;
    if n == 0 {
      assert acts + Advances(0, e, seesEmpty, choice) == acts;
    } else {
      StaysFor(c, acts, e, seesEmpty, choice, n - 1);
      var before, act := acts + Advances(n - 1, e, seesEmpty, choice), Advance(e, seesEmpty, choice);
      assert acts + Advances(n, e, seesEmpty, choice) == before + [act];
      Append(c, before, act);
      ExplicitMoves(c, Exec(c, before), act, e);
      ReadyStaysFor(c, Exec(c, before), act, e);
    }
  }

  lemma ReadyStaysFor(c: Config, s: State, act: Act, e: nat)
    requires E.Sane(c.queue) && Shaped(s) && e < |s.exps| && s.exps[e].ppc == E.Ready && act.Advance?
    ensures var own := OwnStep(c, s, act, e); own != [] ==> E.Next(c.queue, s.exps[e], own[0]) == s.exps[e]
  {
    hide Drawn, I.Shape, E.Shape;
  }

  /**
   From every state of every run, a call of `enqueue(v)` on an explicit producer publishes v within
   ten of its steps, if it is inside a block, or if there is room and a block is to be had.
   */
  lemma ExplicitPublishes(c: Config, acts: seq<Act>, e: nat, v: E.Value, seesEmpty: bool, choice: Choice)
    requires E.Sane(c.queue) && e < |Exec(c, acts).exps| && Exec(c, acts).exps[e].ppc == E.Ready
    requires var s, x := Exec(c, acts), Exec(c, acts).exps[e];
      |x.enq| % c.queue.B == 0 ==> E.HasRoom(c.queue, x) && ToBeHad(s, choice)
    ensures var s' := Exec(c, acts + [Enqueue(e, v)] + Advances(10, e, seesEmpty, choice));
      && e < |s'.exps| && s'.exps[e].ppc == E.Ready && s'.exps[e].enq == Exec(c, acts).exps[e].enq + [v]
  {
    hide InOrder, Exec, I.Shape, E.Sane;
    Append(c, acts, Enqueue(e, v));
    ArrivesFor(c, acts + [Enqueue(e, v)], e, seesEmpty, choice, 10);
  }

  // ---------------------------------------------------------------- how many elements may be queued

  lemma MoveWithin(c: Config, p: I.Prod, m: I.Mem, a: I.Aux, move: Move)
    requires E.Sane(c.queue) && I.Shape(p) && I.Inv(c.queue, p, m, a) && I.Within(c.queue, p)
    ensures I.Within(c.queue, After(c, p, m, move))
  {
    hide I.Inv, I.Produced, I.Consumed, I.Shape;
    match move
    case Stay =>
    case Begun(v) => I.BegunWithin(c.queue, p, v);
    case Claimed => I.BegunWithin(c.queue, p, 0);
    case Went(ok, block) => I.ProducedWithin(c.queue, p, m, a, ok, block);
    case Consumes(i) => I.ConsumedSame(c.queue, p, m, i);
  }

  lemma {:induction false} AllWithin(c: Config, acts: seq<Act>, p: nat)
    requires E.Sane(c.queue) && p < |Exec(c, acts).prods|
    ensures I.Within(c.queue, Exec(c, acts).prods[p])
  {
    hide Next, Inv, I.Within, I.Shape, E.Shape, After, MoveOf;
    assert acts != [] by { NoProducers(c); }
    var n := |acts| - 1;
    var s := Exec(c, acts[..n]);
    Moves(c, s, acts[n], p);
    if p < |s.prods| {
      AllWithin(c, acts[..n], p);
      var auxs :| Inv(c, s, auxs);
      KnowProd(c, s, auxs, p);
      MoveWithin(c, s.prods[p], s.mem, auxs[p], MoveOf(c, s, acts[n], p));
    } else {
      I.InitWithin(c.queue);
    }
  }

  /**
   In every run an implicit producer has fewer elements queued than half the range of the index
   type, within which the comparisons of indices are right.
   */
  lemma RangeKept(c: Config, acts: seq<Act>, p: nat)
    requires E.Sane(c.queue) && p < |Exec(c, acts).prods|
    ensures var x := Exec(c, acts).prods[p]; |x.vals| - |x.deq| < c.queue.W / 2
  {
    hide Exec;
    AllWithin(c, acts, p);
  }
}
