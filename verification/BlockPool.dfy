/**
 The queue's blocks, shared by all its producers, implicit and explicit: a pool allocated at
 first, the free list, and blocks created later.  The free list is a set here, with one step
 to add to it and one to take from it, which is what FreeList.RefinesSet shows it to be.  An
 explicit producer keeps its blocks in its ring; an implicit one gives them back.
 */
module BlockPool {
  import opened Wrappers
  import E = ExplicitProducer
  import I = ImplicitProducer

  type Block = nat

  /** size: blocks allocated at first, numbered from 0. */
  datatype Config = Config(queue: E.Config, size: nat)

  /** Where a producer is inside requisition_block. */
  datatype Req = Look | FetchAdd | TryFree

  datatype State = State(
    next: nat,                          // initialBlockPoolIndex
    created: nat,                       // blocks created later
    free: set<Block>,
    prods: seq<I.Prod>,                 // implicit producers
    reqs: seq<Req>,
    mem: I.Mem,
    exps: seq<E.State>,                 // explicit producers
    ereqs: seq<Req>)

  /** What try_get and create come up with. */
  datatype Choice = Get(b: Block) | Create | Nothing

  datatype Act =
    | NewProducer
    | Begin(p: nat, v: I.Value)
    | Produce(p: nat, ok: bool, choice: Choice)
    | Claim(p: nat)
    | Consume(p: nat, i: nat)
    | NewExplicit
    | Enqueue(e: nat, v: E.Value)
    | Advance(e: nat, seesEmpty: bool, choice: Choice)
    | Dequeue(e: nat, t: E.Cid, n: nat)

  predicate Shaped(s: State) {
    && |s.reqs| == |s.prods| && |s.ereqs| == |s.exps|
    && (forall p | 0 <= p < |s.prods| :: I.Shape(s.prods[p])) && forall e | 0 <= e < |s.exps| :: E.Shape(s.exps[e])
  }

  function Init(): State { State(0, 0, {}, [], [], I.Mem(map[], map[]), [], []) }

  function SetProd(s: State, p: nat, x: (I.Prod, I.Mem)): State
    requires p < |s.prods|
  {
    s.(prods := s.prods[p := x.0], mem := x.1)
  }

  /** The producer's next step, `block` being what requisition_block returns if it is there. */
  function Step(c: Config, s: State, p: nat, ok: bool, block: Option<Block>): State
    requires E.Sane(c.queue) && Shaped(s) && p < |s.prods|
  {
    SetProd(s, p, I.Produced(c.queue, s.prods[p], s.mem, ok, block)).(reqs := s.reqs[p := Look])
  }

  /** One step of requisition_block: the pool after it, where the producer is, and what is returned, if it returns. */
  datatype Draw = Draw(next: nat, created: nat, free: set<Block>, req: Req, got: Option<Option<Block>>)

  function Drawn(c: Config, s: State, req: Req, choice: Choice): Draw {
    match req
    case Look => Draw(s.next, s.created, s.free, if s.next >= c.size then TryFree else FetchAdd, None)
    case FetchAdd =>
      if s.next < c.size then Draw(s.next + 1, s.created, s.free, Look, Some(Some(s.next)))
      else Draw(s.next + 1, s.created, s.free, TryFree, None)
    case TryFree =>
      match choice
      case Get(b) =>
        if b in s.free then Draw(s.next, s.created, s.free - {b}, Look, Some(Some(b)))
        else Draw(s.next, s.created, s.free, TryFree, None)
      case Create => Draw(s.next, s.created + 1, s.free, Look, Some(Some(c.size + s.created)))
      case Nothing => Draw(s.next, s.created, s.free, Look, Some(None))
  }

  function Pool(s: State, d: Draw): State { s.(next := d.next, created := d.created, free := d.free) }

  function Requisition(c: Config, s: State, p: nat, ok: bool, choice: Choice): State
    requires E.Sane(c.queue) && Shaped(s) && p < |s.prods|
  {
    var d := Drawn(c, s, s.reqs[p], choice);
    if d.got.None? then Pool(s, d).(reqs := s.reqs[p := d.req]) else Pool(Step(c, s, p, ok, d.got.value), d)
  }

  /** The explicit producer's next step. */
  function Stepped(c: Config, s: State, e: nat, act: E.Act): State
    requires E.Sane(c.queue) && Shaped(s) && e < |s.exps|
  {
    s.(exps := s.exps[e := E.Next(c.queue, s.exps[e], act)])
  }

  function Requested(c: Config, s: State, e: nat, seesEmpty: bool, choice: Choice): State
    requires E.Sane(c.queue) && Shaped(s) && e < |s.exps|
  {
    var d := Drawn(c, s, s.ereqs[e], choice);
    var s' := if d.got.None? then s else Stepped(c, s, e, E.Produce(seesEmpty, d.got.value));
    Pool(s', d).(ereqs := s.ereqs[e := d.req])
  }

  function Next(c: Config, s: State, act: Act): State
    requires E.Sane(c.queue) && Shaped(s)
  {
    match act
    case NewProducer => s.(prods := s.prods + [I.Init(c.queue)], reqs := s.reqs + [Look])
    case Begin(p, v) => if p >= |s.prods| then s else s.(prods := s.prods[p := I.Begin(c.queue, s.prods[p], v)])
    case Claim(p) => if p >= |s.prods| then s else s.(prods := s.prods[p := I.Claim(s.prods[p])])
    case Produce(p, ok, choice) =>
      if p >= |s.prods| then s
      else if s.prods[p].ppc.Take? then Requisition(c, s, p, ok, choice)
      else Step(c, s, p, ok, None)
    case Consume(p, i) =>
      if p >= |s.prods| then s
      else
        var pr := s.prods[p];
        var s' := SetProd(s, p, I.Consumed(c.queue, pr, s.mem, i));
        if i < |pr.deq| && pr.deq[i].Give? then s'.(free := s.free + {pr.deq[i].b}) else s'
    case NewExplicit => s.(exps := s.exps + [E.Exec(c.queue, [])], ereqs := s.ereqs + [Look])
    case Enqueue(e, v) => if e >= |s.exps| then s else Stepped(c, s, e, E.Enqueue(v))
    case Advance(e, seesEmpty, choice) =>
      if e >= |s.exps| then s
      else if s.exps[e].ppc.Requisition? then Requested(c, s, e, seesEmpty, choice)
      else Stepped(c, s, e, E.Produce(seesEmpty, if choice == Nothing then None else Some(0)))  // a new index, or none
    case Dequeue(e, t, n) => if e >= |s.exps| then s else Stepped(c, s, e, E.Consume(t, n))
  }

  // ---------------------------------------------------------------- invariant

  ghost predicate Exists(c: Config, s: State, b: Block) { b < c.size + s.created }

  ghost predicate Unissued(c: Config, s: State, b: Block) { s.next <= b < c.size }

  datatype Who = Implicit(p: nat) | Explicit(e: nat)

  ghost predicate Held(c: Config, s: State, auxs: seq<I.Aux>, w: Who, b: Block) {
    match w
    case Implicit(p) => p < |s.prods| == |auxs| && I.Holds(c.queue, s.prods[p], auxs[p], b)
    case Explicit(e) => e < |s.exps| && b in s.exps[e].next
  }

  /** Each block is unissued, free, or held by one producer. */
  ghost predicate Placed(c: Config, s: State, auxs: seq<I.Aux>) {
    && (forall w, b | Held(c, s, auxs, w, b) :: Exists(c, s, b) && !Unissued(c, s, b) && b !in s.free)
    && (forall w, u, b | Held(c, s, auxs, w, b) && Held(c, s, auxs, u, b) :: w == u)
    && (forall b | b in s.free :: Exists(c, s, b) && !Unissued(c, s, b))
    && (forall b | Exists(c, s, b) && !Unissued(c, s, b) && b !in s.free :: exists w :: Held(c, s, auxs, w, b))
  }

  /** The explicit producer is in a state that its own steps lead to. */
  ghost predicate Reached(c: Config, e: E.State)
    requires E.Sane(c.queue)
  {
    exists acts :: e == E.Exec(c.queue, acts)
  }

  ghost predicate ProdsInv(c: Config, s: State, auxs: seq<I.Aux>)
    requires E.Sane(c.queue)
  {
    && |auxs| == |s.prods| == |s.reqs| && |s.ereqs| == |s.exps|
    && (forall p | 0 <= p < |s.prods| :: I.Inv(c.queue, s.prods[p], s.mem, auxs[p]))
    && forall e | 0 <= e < |s.exps| :: Reached(c, s.exps[e])
  }

  ghost predicate Inv(c: Config, s: State, auxs: seq<I.Aux>)
    requires E.Sane(c.queue)
  {
    ProdsInv(c, s, auxs) && Placed(c, s, auxs)
  }

  lemma ReachedShape(c: Config, e: E.State)
    requires E.Sane(c.queue) && Reached(c, e)
    ensures E.Shape(e)
  {
    var acts :| e == E.Exec(c.queue, acts);
  }

  lemma InvShaped(c: Config, s: State, auxs: seq<I.Aux>)
    requires E.Sane(c.queue) && ProdsInv(c, s, auxs)
    ensures Shaped(s)
  {
    hide I.Inv, I.Shape, E.Shape, Reached;
    forall p | 0 <= p < |s.prods|
      ensures I.Shape(s.prods[p])
    {
      I.InvShape(c.queue, s.prods[p], s.mem, auxs[p]);
    }
    forall e | 0 <= e < |s.exps|
      ensures E.Shape(s.exps[e])
    {
      ReachedShape(c, s.exps[e]);
    }
  }

  /** Implicit producer p changes, writing only to blocks it holds; the others are untouched. */
  lemma ProdsChange(c: Config, s: State, s': State, auxs: seq<I.Aux>, p: nat, a: I.Aux)
    requires E.Sane(c.queue) && Inv(c, s, auxs) && p < |s.prods| && s'.exps == s.exps && s'.ereqs == s.ereqs
    requires |s'.prods| == |s.prods| && s'.prods == s.prods[p := s'.prods[p]] && |s'.reqs| == |s.reqs|
    requires I.Inv(c.queue, s'.prods[p], s'.mem, a)
    requires forall b: Block | !I.Holds(c.queue, s.prods[p], auxs[p], b) :: I.Same(s.mem, s'.mem, b)
    ensures ProdsInv(c, s', auxs[p := a])
  {
    hide I.Inv, I.Holds, I.Same, Reached;
    forall q | 0 <= q < |s.prods| && q != p
      ensures I.Inv(c.queue, s'.prods[q], s'.mem, auxs[q])
    {
      forall b: Block | I.Holds(c.queue, s.prods[q], auxs[q], b)
        ensures I.Same(s.mem, s'.mem, b)
      {
        assert Held(c, s, auxs, Implicit(q), b);
        assert !Held(c, s, auxs, Implicit(p), b);
      }
      I.Frame(c.queue, s.prods[q], s.mem, s'.mem, auxs[q]);
    }
  }

  /** The pool gives `got` away, or takes `given` back. */
  ghost predicate PoolMoves(c: Config, s: State, s': State, got: Option<Block>, given: Option<Block>) {
    && (forall b: Block :: b in s'.free <==> (b in s.free && got != Some(b)) || given == Some(b))
    && (forall b: Block :: Exists(c, s', b) <==> Exists(c, s, b) || got == Some(b))
    && (forall b: Block :: Unissued(c, s', b) <==> Unissued(c, s, b) && got != Some(b))
    && (got.Some? ==> Available(c, s, got.value)) && (given.Some? ==> got.None?)
  }

  /** Implicit producer p comes to hold `got`, or gives `given` back, and all else stays where it was. */
  lemma PlacesChange(c: Config, s: State, s': State, auxs: seq<I.Aux>, p: nat, a: I.Aux, got: Option<Block>,
                     given: Option<Block>)
    requires E.Sane(c.queue) && Inv(c, s, auxs) && p < |s.prods| && s'.exps == s.exps
    requires |s'.prods| == |s.prods| && s'.prods == s.prods[p := s'.prods[p]]
    requires forall b: Block :: I.Holds(c.queue, s'.prods[p], a, b) <==>
               (I.Holds(c.queue, s.prods[p], auxs[p], b) || got == Some(b)) && given != Some(b)
    requires given.Some? ==> I.Holds(c.queue, s.prods[p], auxs[p], given.value)
    requires PoolMoves(c, s, s', got, given)
    ensures Placed(c, s', auxs[p := a])
  {
    hide I.Holds, I.Inv, PoolMoves, Placed;
    var auxs' := auxs[p := a];
    forall w: Who, b: Block
      ensures Held(c, s', auxs', w, b) <==>
              (Held(c, s, auxs, w, b) || (w == Implicit(p) && got == Some(b))) &&
                !(w == Implicit(p) && given == Some(b))
    {
    }
    PlacesParts(c, s, s', auxs, auxs', Implicit(p), got, given);
  }

  /** Block b is up for grabs: unissued, free, or not created yet. */
  ghost predicate Available(c: Config, s: State, b: Block) { Unissued(c, s, b) || b in s.free || !Exists(c, s, b) }

  lemma PlacesParts(c: Config, s: State, s': State, auxs: seq<I.Aux>, auxs': seq<I.Aux>, who: Who, got: Option<Block>,
                    given: Option<Block>)
    requires Placed(c, s, auxs) && PoolMoves(c, s, s', got, given)
    requires forall w: Who, b: Block :: Held(c, s', auxs', w, b) <==>
               (Held(c, s, auxs, w, b) || (w == who && got == Some(b))) && !(w == who && given == Some(b))
    requires given.Some? ==> Held(c, s, auxs, who, given.value)
    ensures Placed(c, s', auxs')
  {
    hide Held, Exists, Unissued;
    forall b: Block | Exists(c, s', b) && !Unissued(c, s', b) && b !in s'.free
      ensures exists w :: Held(c, s', auxs', w, b)
    {
      if got == Some(b) {
        assert Held(c, s', auxs', who, b);
      } else {
        var w :| Held(c, s, auxs, w, b);
        assert Held(c, s', auxs', w, b);
      }
    }
  }

  lemma NotHeld(c: Config, s: State, auxs: seq<I.Aux>, w: Who, b: Block)
    requires E.Sane(c.queue) && Inv(c, s, auxs) && Available(c, s, b)
    ensures !Held(c, s, auxs, w, b)
  {
    hide I.Inv, Held, Reached;
  }

  /** What requisition_block returns was up for grabs, and nothing else changes hands. */
  lemma DrawMoves(c: Config, s: State, auxs: seq<I.Aux>, s': State, req: Req, choice: Choice)
    requires E.Sane(c.queue) && Inv(c, s, auxs)
    requires var d := Drawn(c, s, req, choice); s'.next == d.next && s'.created == d.created && s'.free == d.free
    ensures PoolMoves(c, s, s', Given(Drawn(c, s, req, choice)), None)
  {
    KnowUnlisted(c, s, auxs);
    hide Inv;
    if req == TryFree && choice.Get? && choice.b in s.free { KnowFree(c, s, auxs, choice.b); }
  }

  function Given(d: Draw): Option<Block> { if d.got.Some? then d.got.value else None }

  lemma KeepStep(c: Config, s: State, s': State, auxs: seq<I.Aux>, p: nat, ok: bool, block: Option<Block>)
    returns (auxs': seq<I.Aux>)
    requires E.Sane(c.queue) && Inv(c, s, auxs) && Shaped(s) && p < |s.prods|
    requires s' == Step(c, s, p, ok, block).(free := s'.free, next := s'.next, created := s'.created)
    requires block.Some? ==> s.prods[p].ppc.Take?
    requires PoolMoves(c, s, s', block, None)
    ensures Inv(c, s', auxs')
  {
    hide I.Inv, I.Holds, I.Same, I.Produced, I.Shape, Placed, PoolMoves, ProdsInv;
    KnowProds(c, s, auxs);
    var pr, m := s.prods[p], s.mem;
    if block.Some? { NotHeldBy(c, s, s', auxs, p, block.value); }
    var a := I.KeepProduced(c.queue, pr, m, auxs[p], ok, block);
    auxs' := auxs[p := a];
    forall b: Block
      ensures I.Holds(c.queue, s'.prods[p], a, b) <==> I.Holds(c.queue, pr, auxs[p], b) || block == Some(b)
      ensures !I.Holds(c.queue, pr, auxs[p], b) ==> I.Same(m, s'.mem, b)
    {
      I.ProducedHolds(c.queue, pr, m, auxs[p], a, ok, block, b);
    }
    ProdsChange(c, s, s', auxs, p, a);
    PlacesChange(c, s, s', auxs, p, a, block, None);
  }

  lemma KnowProds(c: Config, s: State, auxs: seq<I.Aux>)
    requires E.Sane(c.queue) && Inv(c, s, auxs)
    ensures |auxs| == |s.prods| == |s.reqs| && |s.ereqs| == |s.exps|
    ensures forall p | 0 <= p < |s.prods| :: I.Inv(c.queue, s.prods[p], s.mem, auxs[p])
    ensures forall e | 0 <= e < |s.exps| :: Reached(c, s.exps[e])
  {
    hide I.Inv, Reached, Placed;
  }

  lemma NotHeldBy(c: Config, s: State, s': State, auxs: seq<I.Aux>, p: nat, b: Block)
    requires E.Sane(c.queue) && Inv(c, s, auxs) && p < |s.prods| == |auxs| && PoolMoves(c, s, s', Some(b), None)
    ensures !I.Holds(c.queue, s.prods[p], auxs[p], b)
  {
    hide I.Inv, I.Holds, Inv;
    NotHeld(c, s, auxs, Implicit(p), b);
  }

  /** Only the pool and the place in requisition_block change, and no block changes hands. */
  lemma KeepReq(c: Config, s: State, s': State, auxs: seq<I.Aux>)
    requires E.Sane(c.queue) && Inv(c, s, auxs) && PoolMoves(c, s, s', None, None)
    requires s' == s.(next := s'.next, created := s'.created, free := s'.free, reqs := s'.reqs, ereqs := s'.ereqs)
    requires |s'.reqs| == |s.reqs| && |s'.ereqs| == |s.ereqs|
    ensures Inv(c, s', auxs)
  {
    hide I.Inv, Placed, Reached, PoolMoves;
    assert forall w: Who, b: Block :: Held(c, s', auxs, w, b) == Held(c, s, auxs, w, b);
    PlacesParts(c, s, s', auxs, auxs, Implicit(0), None, None);
  }

  lemma KeepRequisition(c: Config, s: State, auxs: seq<I.Aux>, p: nat, ok: bool, choice: Choice)
    returns (auxs': seq<I.Aux>)
    requires E.Sane(c.queue) && Inv(c, s, auxs) && Shaped(s) && p < |s.prods| && s.prods[p].ppc.Take?
    ensures Inv(c, Requisition(c, s, p, ok, choice), auxs')
  {
    hide Inv, I.Shape, I.Produced, PoolMoves, Drawn, E.Shape;
    var s' := Requisition(c, s, p, ok, choice);
    var d := Drawn(c, s, s.reqs[p], choice);
    DrawMoves(c, s, auxs, s', s.reqs[p], choice);
    auxs' := auxs;
    if d.got.None? {
      KeepReq(c, s, s', auxs);
    } else {
      auxs' := KeepStep(c, s, s', auxs, p, ok, d.got.value);
    }
  }

  // ---------------------------------------------------------------- explicit producers

  /** An explicit producer's ring gains exactly the block it is given. */
  lemma RingGains(c: Config, x: E.State, act: E.Act, b: Block)
    requires E.Sane(c.queue) && E.Shape(x)
    ensures var got := act.Produce? && x.ppc.Requisition? && act.block == Some(b);
      b in E.Next(c.queue, x, act).next <==> b in x.next || got
  {
    hide E.Slot, E.AllEmpty, E.BlockEnd, E.Grown;
    if act.Produce? && x.ppc.Requisition? && act.block.Some? && x.tailBlock.Some? && x.tailBlock.value in x.next {
      assert b == x.tailBlock.value ==> b in x.next;
    }
  }

  lemma ReachesOn(c: Config, x: E.State, act: E.Act)
    requires E.Sane(c.queue) && Reached(c, x) && E.Shape(x)
    ensures Reached(c, E.Next(c.queue, x, act))
  {
    hide E.Next;
    var acts :| x == E.Exec(c.queue, acts);
    assert (acts + [act])[..|acts|] == acts;
    assert E.Exec(c.queue, acts + [act]) == E.Next(c.queue, x, act);
  }

  /** Explicit producer e takes a step, `got` being what requisition_block returns if it is there. */
  lemma KeepStepped(c: Config, s: State, s': State, auxs: seq<I.Aux>, e: nat, act: E.Act, got: Option<Block>)
    requires E.Sane(c.queue) && Inv(c, s, auxs) && Shaped(s) && e < |s.exps|
    requires s' == Stepped(c, s, e, act).(free := s'.free, next := s'.next, created := s'.created, ereqs := s'.ereqs)
    requires |s'.ereqs| == |s.ereqs|
    requires got == if act.Produce? && s.exps[e].ppc.Requisition? then act.block else None
    requires PoolMoves(c, s, s', got, None)
    ensures Inv(c, s', auxs)
  {
    hide I.Inv, I.Holds, Placed, Reached, PoolMoves, E.Next, ProdsInv, E.Shape, I.Shape;
    KnowProds(c, s, auxs);
    ReachesOn(c, s.exps[e], act);
    assert ProdsInv(c, s', auxs) by { ProdsSame(c, s, s', auxs); }
    forall w: Who, b: Block
      ensures Held(c, s', auxs, w, b) <==> Held(c, s, auxs, w, b) || (w == Explicit(e) && got == Some(b))
    {
      RingGains(c, s.exps[e], act, b);
    }
    PlacesParts(c, s, s', auxs, auxs, Explicit(e), got, None);
  }

  lemma ProdsSame(c: Config, s: State, s': State, auxs: seq<I.Aux>)
    requires E.Sane(c.queue) && ProdsInv(c, s, auxs) && s'.prods == s.prods && s'.mem == s.mem && s'.reqs == s.reqs
    requires |s'.ereqs| == |s'.exps| && forall e | 0 <= e < |s'.exps| :: Reached(c, s'.exps[e])
    ensures ProdsInv(c, s', auxs)
  {
    hide I.Inv, Reached;
  }

  lemma KeepRequested(c: Config, s: State, auxs: seq<I.Aux>, e: nat, seesEmpty: bool, choice: Choice)
    requires E.Sane(c.queue) && Inv(c, s, auxs) && Shaped(s) && e < |s.exps| && s.exps[e].ppc.Requisition?
    ensures Inv(c, Requested(c, s, e, seesEmpty, choice), auxs)
  {
    hide Inv, E.Next, PoolMoves, Drawn, E.Shape, I.Shape;
    var s' := Requested(c, s, e, seesEmpty, choice);
    var d := Drawn(c, s, s.ereqs[e], choice);
    DrawMoves(c, s, auxs, s', s.ereqs[e], choice);
    if d.got.None? {
      KeepReq(c, s, s', auxs);
    } else {
      KeepStepped(c, s, s', auxs, e, E.Produce(seesEmpty, d.got.value), d.got.value);
    }
  }

  /** An explicit producer's step that draws no block. */
  lemma KeepOwn(c: Config, s: State, auxs: seq<I.Aux>, e: nat, act: E.Act)
    requires E.Sane(c.queue) && Inv(c, s, auxs) && Shaped(s) && e < |s.exps|
    requires act.Produce? ==> !s.exps[e].ppc.Requisition?
    ensures Inv(c, Stepped(c, s, e, act), auxs)
  {
    hide Inv, E.Next, E.Shape, I.Shape;
    PoolStays(c, s, Stepped(c, s, e, act));
    KeepStepped(c, s, Stepped(c, s, e, act), auxs, e, act, None);
  }

  lemma PoolStays(c: Config, s: State, s': State)
    requires s'.next == s.next && s'.created == s.created && s'.free == s.free
    ensures PoolMoves(c, s, s', None, None)
  {
  }

  lemma KeepNewExplicit(c: Config, s: State, auxs: seq<I.Aux>)
    requires E.Sane(c.queue) && Inv(c, s, auxs) && Shaped(s)
    ensures Inv(c, Next(c, s, NewExplicit), auxs)
  {
    hide I.Inv, I.Holds, Placed, Reached, PoolMoves, ProdsInv, E.Shape, I.Shape;
    var s' := Next(c, s, NewExplicit);
    KnowProds(c, s, auxs);
    NewReached(c);
    assert ProdsInv(c, s', auxs) by { ProdsSame(c, s, s', auxs); }
    assert s'.exps[|s.exps|].next == map[];
    forall w: Who, b: Block
      ensures Held(c, s', auxs, w, b) <==> Held(c, s, auxs, w, b)
    {
    }
    PoolStays(c, s, s');
    PlacesParts(c, s, s', auxs, auxs, Implicit(0), None, None);
  }

  lemma NewReached(c: Config)
    requires E.Sane(c.queue)
    ensures Reached(c, E.Exec(c.queue, []))
  {
  }

  // ---------------------------------------------------------------- implicit producers

  lemma KnowUnlisted(c: Config, s: State, auxs: seq<I.Aux>)
    requires E.Sane(c.queue) && Inv(c, s, auxs)
    ensures forall b: Block | Unissued(c, s, b) || !Exists(c, s, b) :: b !in s.free
  {
    hide I.Inv, Held;
  }

  lemma KnowFree(c: Config, s: State, auxs: seq<I.Aux>, b: Block)
    requires E.Sane(c.queue) && Inv(c, s, auxs) && b in s.free
    ensures Exists(c, s, b) && !Unissued(c, s, b)
  {
    hide I.Inv, Held;
  }

  lemma KeepConsume(c: Config, s: State, auxs: seq<I.Aux>, p: nat, i: nat) returns (auxs': seq<I.Aux>)
    requires E.Sane(c.queue) && Inv(c, s, auxs) && Shaped(s) && p < |s.prods|
    ensures Inv(c, Next(c, s, Consume(p, i)), auxs')
  {
    hide I.Inv, I.Holds, I.Same, I.Consumed, I.Shape, Placed, ProdsInv, E.Shape;
    KnowProds(c, s, auxs);
    var s' := Next(c, s, Consume(p, i));
    var pr, m := s.prods[p], s.mem;
    var a := I.KeepConsumed(c.queue, pr, m, auxs[p], i);
    auxs' := auxs[p := a];
    var given := if i < |pr.deq| && pr.deq[i].Give? then Some(pr.deq[i].b) else None;
    forall b: Block
      ensures I.Holds(c.queue, s'.prods[p], a, b) <==> I.Holds(c.queue, pr, auxs[p], b) && given != Some(b)
      ensures !I.Holds(c.queue, pr, auxs[p], b) ==> I.Same(m, s'.mem, b)
    {
      I.ConsumedHolds(c.queue, pr, m, auxs[p], a, i, b);
    }
    if given.Some? { I.GiveHolds(c.queue, pr, m, auxs[p], i, 0); }
    ProdsChange(c, s, s', auxs, p, a);
    assert PoolMoves(c, s, s', None, given) by { PoolTakes(c, s, s', given); }
    PlacesChange(c, s, s', auxs, p, a, None, given);
  }

  lemma PoolTakes(c: Config, s: State, s': State, given: Option<Block>)
    requires s'.next == s.next && s'.created == s.created
    requires s'.free == if given.Some? then s.free + {given.value} else s.free
    ensures PoolMoves(c, s, s', None, given)
  {
  }

  /** A producer's step that changes neither memory nor what it holds. */
  lemma KeepQuiet(c: Config, s: State, s': State, auxs: seq<I.Aux>, p: nat)
    requires E.Sane(c.queue) && Inv(c, s, auxs) && p < |s.prods| == |s'.prods| &&
      s' == s.(prods := s.prods[p := s'.prods[p]])
    requires I.Inv(c.queue, s'.prods[p], s.mem, auxs[p])
    requires forall b: Block :: I.Holds(c.queue, s'.prods[p], auxs[p], b) <==> I.Holds(c.queue, s.prods[p], auxs[p], b)
    ensures Inv(c, s', auxs)
  {
    hide I.Inv, I.Holds, I.Same, Placed, ProdsInv, PoolMoves;
    KnowProds(c, s, auxs);
    assert auxs[p := auxs[p]] == auxs;
    assert forall b: Block :: I.Same(s.mem, s.mem, b) by { SameMem(s.mem); }
    ProdsChange(c, s, s', auxs, p, auxs[p]);
    PoolStays(c, s, s');
    PlacesChange(c, s, s', auxs, p, auxs[p], None, None);
  }

  lemma SameMem(m: I.Mem)
    ensures forall b: Block :: I.Same(m, m, b)
  {
  }

  lemma KeepBegin(c: Config, s: State, auxs: seq<I.Aux>, p: nat, v: I.Value)
    requires E.Sane(c.queue) && Inv(c, s, auxs) && Shaped(s) && p < |s.prods|
    ensures Inv(c, Next(c, s, Begin(p, v)), auxs)
  {
    hide I.Inv, Placed;
    I.KeepBegin(c.queue, s.prods[p], s.mem, auxs[p], v);
    KeepQuiet(c, s, Next(c, s, Begin(p, v)), auxs, p);
  }

  lemma KeepClaim(c: Config, s: State, auxs: seq<I.Aux>, p: nat)
    requires E.Sane(c.queue) && Inv(c, s, auxs) && Shaped(s) && p < |s.prods|
    ensures Inv(c, Next(c, s, Claim(p)), auxs)
  {
    hide I.Inv, Placed;
    var pr := s.prods[p];
    I.KeepClaim(c.queue, pr, s.mem, auxs[p]);
    I.ClaimHolds(c.queue, pr, auxs[p]);
    KeepQuiet(c, s, Next(c, s, Claim(p)), auxs, p);
  }

  lemma KeepNewProducer(c: Config, s: State, auxs: seq<I.Aux>) returns (auxs': seq<I.Aux>)
    requires E.Sane(c.queue) && Inv(c, s, auxs) && Shaped(s)
    ensures Inv(c, Next(c, s, NewProducer), auxs')
  {
    hide I.Inv, Placed, PoolMoves, Reached, E.Shape;
    var a := I.InitInv(c.queue, s.mem);
    var s' := Next(c, s, NewProducer);
    auxs' := auxs + [a];
    forall w: Who, b: Block
      ensures Held(c, s', auxs', w, b) <==> Held(c, s, auxs, w, b)
    {
    }
    PoolStays(c, s, s');
    PlacesParts(c, s, s', auxs, auxs', Implicit(0), None, None);
  }

  // ---------------------------------------------------------------- every run

  lemma KeepNext(c: Config, s: State, auxs: seq<I.Aux>, act: Act) returns (auxs': seq<I.Aux>)
    requires E.Sane(c.queue) && Inv(c, s, auxs) && Shaped(s)
    ensures Inv(c, Next(c, s, act), auxs')
  {
    hide Inv, Shaped, Step, Requisition, Stepped, Requested;
    auxs' := auxs;
    match act
    case NewProducer => auxs' := KeepNewProducer(c, s, auxs);
    case Begin(p, v) => if p < |s.prods| { KeepBegin(c, s, auxs, p, v); }
    case Claim(p) => if p < |s.prods| { KeepClaim(c, s, auxs, p); }
    case Consume(p, i) => if p < |s.prods| { auxs' := KeepConsume(c, s, auxs, p, i); }
    case Produce(p, ok, choice) =>
      if p < |s.prods| {
        if s.prods[p].ppc.Take? {
          auxs' := KeepRequisition(c, s, auxs, p, ok, choice);
        } else {
          KnowStep(c, s, p, ok);
          PoolStays(c, s, Step(c, s, p, ok, None));
          auxs' := KeepStep(c, s, Step(c, s, p, ok, None), auxs, p, ok, None);
        }
      }
    case NewExplicit => KeepNewExplicit(c, s, auxs);
    case Enqueue(e, v) => if e < |s.exps| { KeepOwn(c, s, auxs, e, E.Enqueue(v)); }
    case Dequeue(e, t, n) => if e < |s.exps| { KeepOwn(c, s, auxs, e, E.Consume(t, n)); }
    case Advance(e, seesEmpty, choice) =>
      if e < |s.exps| {
        if s.exps[e].ppc.Requisition? {
          KeepRequested(c, s, auxs, e, seesEmpty, choice);
        } else {
          KeepOwn(c, s, auxs, e, E.Produce(seesEmpty, if choice == Nothing then None else Some(0)));
        }
      }
  }

  lemma KnowStep(c: Config, s: State, p: nat, ok: bool)
    requires E.Sane(c.queue) && Shaped(s) && p < |s.prods|
    ensures var s' := Step(c, s, p, ok, None); s'.free == s.free && s'.next == s.next && s'.created == s.created
  {
    hide I.Produced;
  }

  ghost predicate InOrder(c: Config, s: State)
    requires E.Sane(c.queue)
  {
    exists auxs :: Inv(c, s, auxs)
  }

  lemma OrderShaped(c: Config, s: State)
    requires E.Sane(c.queue) && InOrder(c, s)
    ensures Shaped(s)
  {
    hide Inv, Shaped;
    var auxs :| Inv(c, s, auxs);
    InvParts(c, s, auxs);
    InvShaped(c, s, auxs);
  }

  lemma InvParts(c: Config, s: State, auxs: seq<I.Aux>)
    requires E.Sane(c.queue) && Inv(c, s, auxs)
    ensures ProdsInv(c, s, auxs) && Placed(c, s, auxs)
  {
    hide ProdsInv, Placed;
  }

  lemma OrderKept(c: Config, s: State, act: Act)
    requires E.Sane(c.queue) && InOrder(c, s) && Shaped(s)
    ensures InOrder(c, Next(c, s, act))
  {
    hide Inv, Next, Shaped;
    var auxs :| Inv(c, s, auxs);
    var auxs' := KeepNext(c, s, auxs, act);
  }

  lemma OrderInit(c: Config)
    requires E.Sane(c.queue)
    ensures InOrder(c, Init())
  {
    assert Inv(c, Init(), []);
  }

  /** The state after a whole schedule. */
  ghost function Exec(c: Config, acts: seq<Act>): (s: State)
    requires E.Sane(c.queue)
    ensures InOrder(c, s) && Shaped(s)
  {
    if acts == [] then OrderInit(c); Init()
    else
      var s := Exec(c, acts[..|acts| - 1]);
      OrderKept(c, s, acts[|acts| - 1]);
      OrderShaped(c, Next(c, s, acts[|acts| - 1]));
      Next(c, s, acts[|acts| - 1])
  }

  // ---------------------------------------------------------------- what every run guarantees

  /** In the producer's index, on its way in or out of it, or in its ring. */
  ghost predicate UsedBy(s: State, w: Who, b: Block) {
    match w
    case Implicit(p) => p < |s.prods| && I.Uses(s.prods[p], b)
    case Explicit(e) => e < |s.exps| && b in s.exps[e].next
  }

  ghost predicate Unused(s: State, b: Block) { forall w :: !UsedBy(s, w, b) }

  ghost predicate UsedByOne(s: State, b: Block) { exists w :: UsedBy(s, w, b) && forall u | UsedBy(s, u, b) :: u == w }

  /**
   Every block is in the pool, on the free list, or in use or in transit at one producer, and never
   in two of these.
   */
  lemma OnePlace(c: Config, acts: seq<Act>, b: Block)
    requires E.Sane(c.queue) && Exists(c, Exec(c, acts), b)
    ensures var s := Exec(c, acts);
            || (Unissued(c, s, b) && b !in s.free && Unused(s, b))
            || (!Unissued(c, s, b) && b in s.free && Unused(s, b))
            || (!Unissued(c, s, b) && b !in s.free && UsedByOne(s, b))
  {
    hide Inv, Exists, Unissued, Exec;
    var s := Exec(c, acts);
    var auxs :| Inv(c, s, auxs);
    InvParts(c, s, auxs);
    UsedHeld(c, s, auxs, b);
    PlaceOf(c, s, auxs, b);
  }

  lemma UsedHeld(c: Config, s: State, auxs: seq<I.Aux>, b: Block)
    requires E.Sane(c.queue) && ProdsInv(c, s, auxs)
    ensures forall w :: UsedBy(s, w, b) <==> Held(c, s, auxs, w, b)
  {
    hide I.Inv, I.Uses, I.Holds, Reached;
    forall w
      ensures UsedBy(s, w, b) <==> Held(c, s, auxs, w, b)
    {
      if w.Implicit? && w.p < |s.prods| { I.UsesHolds(c.queue, s.prods[w.p], s.mem, auxs[w.p], b); }
    }
  }

  lemma PlaceOf(c: Config, s: State, auxs: seq<I.Aux>, b: Block)
    requires Placed(c, s, auxs) && Exists(c, s, b)
    requires forall w :: UsedBy(s, w, b) <==> Held(c, s, auxs, w, b)
    ensures || (Unissued(c, s, b) && b !in s.free && Unused(s, b))
            || (!Unissued(c, s, b) && b in s.free && Unused(s, b))
            || (!Unissued(c, s, b) && b !in s.free && UsedByOne(s, b))
  {
    hide Held, Exists, Unissued, UsedBy;
    if !Unissued(c, s, b) && b !in s.free {
      var w :| Held(c, s, auxs, w, b);
      assert UsedBy(s, w, b);
    }
  }

  /**
   In every run, at every implicit producer: lookups, results, counters, closing a block and
   writing to one are as they should be.
   */
  lemma AllSound(c: Config, acts: seq<Act>, p: nat)
    requires E.Sane(c.queue) && p < |Exec(c, acts).prods|
    ensures I.Sound(c.queue, Exec(c, acts).prods[p], Exec(c, acts).mem)
  {
    hide Placed, I.Inv, I.Sound, Exec, ProdsInv;
    var s := Exec(c, acts);
    var auxs :| Inv(c, s, auxs);
    KnowProds(c, s, auxs);
    I.InvSound(c.queue, s.prods[p], s.mem, auxs[p]);
  }

  /** What step `act` is to explicit producer e, if anything: its own step, with the block it is given. */
  function OwnStep(c: Config, s: State, act: Act, e: nat): seq<E.Act>
    requires e < |s.exps| == |s.ereqs|
  {
    match act
    case Enqueue(x, v) => if x == e then [E.Enqueue(v)] else []
    case Dequeue(x, t, n) => if x == e then [E.Consume(t, n)] else []
    case Advance(x, seesEmpty, choice) =>
      if x != e then []
      else if !s.exps[e].ppc.Requisition? then [E.Produce(seesEmpty, if choice == Nothing then None else Some(0))]
      else
        var got := Drawn(c, s, s.ereqs[e], choice).got;
        if got.None? then [] else [E.Produce(seesEmpty, got.value)]
    case _ => []
  }

  /** The steps of explicit producer e and its consumers, taken out of the whole schedule. */
  ghost function Own(c: Config, acts: seq<Act>, e: nat): seq<E.Act>
    requires E.Sane(c.queue)
  {
    if acts == [] then []
    else
      var n := |acts| - 1;
      var s := Exec(c, acts[..n]);
      Own(c, acts[..n], e) + if e < |s.exps| then OwnStep(c, s, acts[n], e) else []
  }

  /** How one step of the queue moves explicit producer e. */
  lemma ExplicitMoves(c: Config, s: State, act: Act, e: nat)
    requires E.Sane(c.queue) && Shaped(s)
    ensures var s' := Next(c, s, act);
      && |s.exps| <= |s'.exps|
      && (e < |s.exps| ==>
        var own := OwnStep(c, s, act, e);
        s'.exps[e] == if own == [] then s.exps[e] else E.Next(c.queue, s.exps[e], own[0]))
      && (|s.exps| <= e < |s'.exps| ==> s'.exps[e] == E.Exec(c.queue, []))
  {
    hide E.Next, E.Shape, I.Shape, Drawn, I.Produced, I.Consumed, I.Begin, I.Claim, E.Exec;
  }

  lemma {:induction false} NoneYet(c: Config, acts: seq<Act>, e: nat)
    requires E.Sane(c.queue) && e >= |Exec(c, acts).exps|
    ensures Own(c, acts, e) == []
  {
    hide Next, InOrder, Shaped;
    if acts != [] {
      var n := |acts| - 1;
      ExplicitMoves(c, Exec(c, acts[..n]), acts[n], e);
      NoneYet(c, acts[..n], e);
    }
  }

  /**
   In every run every explicit producer is where its own steps lead, taken out of the schedule with
   the blocks it was given, so all that ExplicitProducer proves of those steps holds of it.
   */
  lemma {:induction false} AllReached(c: Config, acts: seq<Act>, e: nat)
    requires E.Sane(c.queue) && e < |Exec(c, acts).exps|
    ensures Exec(c, acts).exps[e] == E.Exec(c.queue, Own(c, acts, e))
  {
    hide Next, InOrder, E.Exec, E.Next, E.Shape, I.Shape;
    var n := |acts| - 1;
    assert acts != [] by { InitNone(c); }
    var s := Exec(c, acts[..n]);
    ExplicitMoves(c, s, acts[n], e);
    if e < |s.exps| {
      AllReached(c, acts[..n], e);
      var before, own := Own(c, acts[..n], e), OwnStep(c, s, acts[n], e);
      if own == [] { assert before + own == before; } else { E.Append(c.queue, before, own[0]); }
    } else {
      NoneYet(c, acts[..n], e);
    }
  }

  lemma InitNone(c: Config)
    requires E.Sane(c.queue)
    ensures Exec(c, []).exps == []
  {
  }

  /** In particular every value returned is the one passed to the call of `enqueue` that published it. */
  lemma AllReturned(c: Config, acts: seq<Act>, e: nat, k: nat)
    requires E.Sane(c.queue) && e < |Exec(c, acts).exps| && k < |Exec(c, acts).exps[e].got|
    ensures var (i, x) := Exec(c, acts).exps[e].got[k]; E.SentAs(c.queue, Own(c, acts, e), i, x)
  {
    hide Exec, E.Exec, E.SentAs;
    AllReached(c, acts, e);
    E.ResultsRight(c.queue, Own(c, acts, e));
  }

  /** A block that requisition_block returns to an explicit producer is new to its ring, and ends up in it. */
  lemma ExplicitGets(c: Config, acts: seq<Act>, e: nat, seesEmpty: bool, choice: Choice)
    requires E.Sane(c.queue) && e < |Exec(c, acts).exps| && Exec(c, acts).exps[e].ppc.Requisition?
    requires Given(Drawn(c, Exec(c, acts), Exec(c, acts).ereqs[e], choice)).Some?
    ensures var s := Exec(c, acts);
      var b := Given(Drawn(c, s, s.ereqs[e], choice)).value;
      var x := Requested(c, s, e, seesEmpty, choice).exps[e];
      b !in s.exps[e].next && b in x.next && x.tailBlock == Some(b) && x.ppc.PutBase?
  {
    hide Exec, Inv, Drawn;
    var s := Exec(c, acts);
    var auxs :| Inv(c, s, auxs);
    var d := Drawn(c, s, s.ereqs[e], choice);
    DrawMoves(c, s, auxs, Pool(s, d), s.ereqs[e], choice);
    NotHeld(c, s, auxs, Explicit(e), Given(d).value);
  }
}
