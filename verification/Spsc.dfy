/**
 The single-producer single-consumer queue: a circular list of ring blocks, each with its
 own front and tail, the consumer working in frontBlock and the producer in tailBlock.
 The two threads interleave at every access to a variable the other one writes.
 */
module Spsc {
  import opened Wrappers
  import Ledger
  import ModArith
  import opened PowerOfTwo

  type Value = int

  /** `& sizeMask` is written as `% size`, the size being a power of two. */
  datatype Block = Block(
    size: nat, front: nat, tail: nat,
    localFront: nat,                    // the producer's shadow of front
    localTail: nat,                     // the consumer's shadow of tail
    next: nat, data: seq<Value>)

  /** Where the producer is inside inner_enqueue. */
  datatype Producer =
    | PIdle
    | PFront(v: Value, alloc: bool)              // the shadow says full: load front
    | PWrite(v: Value)                           // construct the element in the tail block
    | PTail(v: Value)                            // publish it
    | PCheck(v: Value, alloc: bool, was: nat)    // full with `was` elements dequeued: load frontBlock
    | PNextFront(v: Value)                       // a spare block is next: load its front
    | PNextWrite(v: Value)
    | PNextTail(v: Value)
    | PAlloc(v: Value)                           // make a new block
    | PLink(v: Value, nb: nat)                   // link it behind the tail block
    | PPublish(v: Value, nb: nat)                // make nb the tail block

  /** try_dequeue and pop remove the front element; peek leaves it. */
  datatype Kind = Remove | Peek

  /** Where the consumer is inside try_dequeue, pop or peek. */
  datatype Consumer =
    | CIdle
    | CTail(k: Kind)                             // the shadow says empty: load tail
    | CTailBlock(k: Kind, had: nat)              // empty with `had` elements enqueued: load tailBlock
    | CTailAgain(k: Kind)                        // another block follows: load tail once more
    | CNext(k: Kind)
    | CNextTail(k: Kind, nb: nat)
    | CAdvance(nb: nat)                          // make nb the front block
    | CRead(k: Kind, b: nat)                     // read the element at the front of b
    | CFront(x: Value)                           // retire it

  datatype State = State(
    blocks: seq<Block>, frontBlock: nat, tailBlock: nat, largest: nat,
    prod: Producer, cons: Consumer,
    enq: seq<Value>,                             // values whose enqueue took effect, in order
    deq: seq<Value>,                             // values dequeued, in order
    peeks: seq<(nat, Value)>)                    // peek results, with the number dequeued before

  datatype Act =
    | Enqueue(v: Value, alloc: bool)             // enqueue, or try_enqueue when !alloc
    | Ask(k: Kind)
    | Produce(memory: bool)                      // next producer step; memory: malloc would succeed
    | Consume

  datatype Config = Config(maxSize: nat, maxBlock: nat, ceil: nat)

  /** What the constructor demands; `ceil` is ceilToPow2(maxSize + 1). */
  ghost predicate Sane(c: Config) {
    c.maxSize >= 1 && c.maxBlock >= 2 && IsPow2(c.maxBlock) && IsCeil(c.maxSize + 1, c.ceil)
  }

  function Fresh(size: nat, next: nat): Block { Block(size, 0, 0, 0, 0, next, seq(size, _ => 0)) }

  /** How many blocks are reserved at first, and of which size. */
  function Count(c: Config): nat
    requires c.maxBlock >= 2
  {
    if c.ceil > 2 * c.maxBlock then (c.maxSize + c.maxBlock * 2 - 3) / (c.maxBlock - 1) else 1
  }

  function Base(c: Config): nat { if c.ceil > 2 * c.maxBlock then c.maxBlock else c.ceil }

  function Circle(n: nat, size: nat): seq<Block> {
    seq(n, i requires 0 <= i < n => Fresh(size, if i + 1 < n then i + 1 else 0))
  }

  function Init(c: Config): State
    requires c.maxBlock >= 2
  {
    State(Circle(Count(c), Base(c)), 0, 0, Base(c), PIdle, CIdle, [], [], [])
  }

  predicate Good(s: State) {
    && s.frontBlock < |s.blocks| && s.tailBlock < |s.blocks|
    && (forall i | 0 <= i < |s.blocks| :: Formed(s.blocks[i], |s.blocks|))
    && Aims(s.prod, s.cons, |s.blocks|)
  }

  predicate Aims(p: Producer, q: Consumer, n: nat) {
    && (p.PLink? ==> p.nb < n) && (p.PPublish? ==> p.nb < n)
    && (q.CNextTail? ==> q.nb < n) && (q.CAdvance? ==> q.nb < n) && (q.CRead? ==> q.b < n)
  }

  predicate Formed(b: Block, n: nat) { b.front < b.size && b.tail < b.size && b.next < n && |b.data| == b.size }

  function Put(s: State, i: nat, b: Block): State
    requires i < |s.blocks|
  {
    s.(blocks := s.blocks[i := b])
  }

  function Produced(c: Config, s: State, memory: bool): State
    requires Good(s)
  {
    var tb := s.blocks[s.tailBlock];
    match s.prod
    case PIdle => s
    case PFront(v, alloc) =>
      var room := (tb.tail + 1) % tb.size != tb.front;
      Put(s, s.tailBlock, tb.(localFront := tb.front)).(prod := if room then PWrite(v) else PCheck(v, alloc, |s.deq|))
    case PWrite(v) => Put(s, s.tailBlock, tb.(data := tb.data[tb.tail := v])).(prod := PTail(v))
    case PTail(v) =>
      Put(s, s.tailBlock, tb.(tail := (tb.tail + 1) % tb.size)).(prod := PIdle, enq := s.enq + [v])
    case PCheck(v, alloc, _) =>
      s.(prod := if tb.next != s.frontBlock then PNextFront(v) else if alloc then PAlloc(v) else PIdle)
    case PNextFront(v) =>
      var nb := s.blocks[tb.next];
      Put(s, tb.next, nb.(localFront := nb.front)).(prod := PNextWrite(v))
    case PNextWrite(v) =>
      var nb := s.blocks[tb.next];
      Put(s, tb.next, nb.(data := nb.data[nb.tail := v])).(prod := PNextTail(v))
    case PNextTail(v) =>
      var nb := s.blocks[tb.next];
      Put(s, tb.next, nb.(tail := (nb.tail + 1) % nb.size)).(prod := PPublish(v, tb.next))
    case PAlloc(v) =>
      if !memory then s.(prod := PIdle)
      else
        var size := if s.largest >= c.maxBlock then s.largest else s.largest * 2;
        if size < 2 then s
        else
          var b := Fresh(size, tb.next);
          s.(blocks := s.blocks + [b.(tail := 1, localTail := 1, data := b.data[0 := v])],
             largest := size, prod := PLink(v, |s.blocks|))
    case PLink(v, nb) => Put(s, s.tailBlock, tb.(next := nb)).(prod := PPublish(v, nb))
    case PPublish(v, nb) => s.(tailBlock := nb, prod := PIdle, enq := s.enq + [v])
  }

  function Consumed(s: State): State
    requires Good(s)
  {
    var fb := s.blocks[s.frontBlock];
    match s.cons
    case CIdle => s
    case CTail(k) =>
      Put(s, s.frontBlock, fb.(localTail := fb.tail)).
        (cons := if fb.front != fb.tail then CRead(k, s.frontBlock) else CTailBlock(k, |s.enq|))
    case CTailBlock(k, _) => s.(cons := if s.frontBlock != s.tailBlock then CTailAgain(k) else CIdle)
    case CTailAgain(k) =>
      Put(s, s.frontBlock, fb.(localTail := fb.tail)).
        (cons := if fb.front != fb.tail then CRead(k, s.frontBlock) else CNext(k))
    case CNext(k) => s.(cons := CNextTail(k, fb.next))
    case CNextTail(k, nb) =>
      if k == Peek then s.(cons := CRead(k, nb))
      else Put(s, nb, s.blocks[nb].(localTail := s.blocks[nb].tail)).(cons := CAdvance(nb))
    case CAdvance(nb) => s.(frontBlock := nb, cons := CRead(Remove, nb))
    case CRead(k, b) =>
      var x := s.blocks[b].data[s.blocks[b].front];
      if k == Peek then s.(cons := CIdle, peeks := s.peeks + [(|s.deq|, x)]) else s.(cons := CFront(x))
    case CFront(x) =>
      Put(s, s.frontBlock, fb.(front := (fb.front + 1) % fb.size)).(cons := CIdle, deq := s.deq + [x])
  }

  function Next(c: Config, s: State, act: Act): State
    requires Good(s)
  {
    match act
    case Enqueue(v, alloc) =>
      var tb := s.blocks[s.tailBlock];
      if s.prod != PIdle then s
      else s.(prod := if (tb.tail + 1) % tb.size != tb.localFront then PWrite(v) else PFront(v, alloc))
    case Ask(k) =>
      var fb := s.blocks[s.frontBlock];
      if s.cons != CIdle then s
      else s.(cons := if fb.front != fb.localTail then CRead(k, s.frontBlock) else CTail(k))
    case Produce(memory) => Produced(c, s, memory)
    case Consume => Consumed(s)
  }

  lemma PutGood(s: State, s': State, i: nat)
    requires Good(s) && i < |s.blocks| == |s'.blocks| && s'.blocks == s.blocks[i := s'.blocks[i]] &&
      Formed(s'.blocks[i], |s.blocks|)
    requires s'.frontBlock < |s.blocks| && s'.tailBlock < |s.blocks| && Aims(s'.prod, s'.cons, |s.blocks|)
    ensures Good(s')
  {
  }

  lemma ProducedGood(c: Config, s: State, memory: bool)
    requires Good(s)
    ensures Good(Produced(c, s, memory))
  {
    hide Fresh;
    if s.prod.PNextFront? || s.prod.PNextWrite? || s.prod.PNextTail? {
      PutGood(s, Produced(c, s, memory), s.blocks[s.tailBlock].next);
    } else if s.prod.PFront? || s.prod.PWrite? || s.prod.PTail? || s.prod.PLink? {
      PutGood(s, Produced(c, s, memory), s.tailBlock);
    } else {
      ProducedGoodRest(c, s, memory);
    }
  }

  lemma ProducedGoodRest(c: Config, s: State, memory: bool)
    requires Good(s) && (s.prod.PIdle? || s.prod.PCheck? || s.prod.PAlloc? || s.prod.PPublish?)
    ensures Good(Produced(c, s, memory))
  {
  }

  lemma ConsumedGood(s: State)
    requires Good(s)
    ensures Good(Consumed(s))
  {
    if s.cons.CTail? || s.cons.CTailAgain? || s.cons.CFront? { PutGood(s, Consumed(s), s.frontBlock); }
    if s.cons.CNextTail? { PutGood(s, Consumed(s), s.cons.nb); }
  }

  lemma NextGood(c: Config, s: State, act: Act)
    requires Good(s)
    ensures Good(Next(c, s, act))
  {
    hide Produced, Consumed;
    match act
    case Produce(memory) => ProducedGood(c, s, memory);
    case Consume => ConsumedGood(s);
    case _ =>
  }

  lemma CountPositive(c: Config)
    requires Sane(c)
    ensures Count(c) >= 1 && Base(c) >= 2
    ensures Count(c) == 1 ==> Base(c) >= c.maxSize + 1
    ensures Count(c) >= 2 ==> (Count(c) - 1) * (Base(c) - 1) >= c.maxSize
  {
    if c.ceil > 2 * c.maxBlock {
      var m := c.maxBlock - 1;
      var n := (c.maxSize + m * 2 - 1) / m;
      assert n == Count(c);
      assert c.maxSize + m * 2 - 1 == m * n + (c.maxSize + m * 2 - 1) % m;
      assert m * n == n * m;
      assert (n - 1) * m == n * m - m;
    }
  }

  lemma InitGood(c: Config)
    requires Sane(c)
    ensures Good(Init(c))
  {
    CountPositive(c);
    var s := Init(c);
    forall i | 0 <= i < |s.blocks|
      ensures Formed(s.blocks[i], |s.blocks|)
    {
      assert s.blocks[i] == Fresh(Base(c), if i + 1 < Count(c) then i + 1 else 0);
    }
  }

  /** The state after a whole schedule. */
  ghost function Exec(c: Config, acts: seq<Act>): (s: State)
    requires Sane(c)
    ensures Good(s)
  {
    if acts == [] then InitGood(c); Init(c)
    else
      var s := Exec(c, acts[..|acts| - 1]);
      NextGood(c, s, acts[|acts| - 1]);
      Next(c, s, acts[|acts| - 1])
  }

  ghost predicate Pow2Sizes(s: State) {
    IsPow2(s.largest) && forall i | 0 <= i < |s.blocks| :: IsPow2(s.blocks[i].size)
  }

  lemma NextSizes(c: Config, s: State, act: Act)
    requires Good(s)
    ensures var s' := Next(c, s, act);
            && |s.blocks| <= |s'.blocks| && (s'.largest == s.largest || s'.largest == 2 * s.largest)
            && (forall i | 0 <= i < |s.blocks| :: s'.blocks[i].size == s.blocks[i].size)
            && forall i | |s.blocks| <= i < |s'.blocks| :: s'.blocks[i].size == s'.largest
  {
  }

  lemma BasePow2(c: Config)
    requires Sane(c)
    ensures IsPow2(Base(c))
  {
  }

  lemma InitSizes(c: Config)
    requires Sane(c)
    ensures forall i | 0 <= i < |Init(c).blocks| :: Init(c).blocks[i].size == Base(c)
  {
    forall i | 0 <= i < |Init(c).blocks|
      ensures Init(c).blocks[i].size == Base(c)
    {
      assert Init(c).blocks[i] == Fresh(Base(c), if i + 1 < Count(c) then i + 1 else 0);
    }
  }

  /** Block sizes are powers of two in every run, so that masking is the remainder taken here. */
  lemma {:induction false} SizesPow2(c: Config, acts: seq<Act>)
    requires Sane(c)
    ensures Pow2Sizes(Exec(c, acts))
  {
    hide Next, IsPow2, IsCeil, Base;
    if acts == [] {
      BasePow2(c);
      InitSizes(c);
    } else {
      var n := |acts| - 1;
      SizesPow2(c, acts[..n]);
      NextSizes(c, Exec(c, acts[..n]), acts[n]);
      Pow2Doubles(Exec(c, acts[..n]).largest);
    }
  }

  // ---------------------------------------------------------------- invariant

  /**
   A linked block with unbounded counters: it holds the elements numbered [f, t), number k
   in slot k % size, and number k is the (off + k)-th value ever enqueued.  lf and lt are
   what the two shadows stand for.
   */
  datatype Cell = Cell(id: nat, size: nat, f: nat, t: nat, lf: nat, lt: nat, off: int)

  /** The linked blocks from the front block on, and the tail block's place among them. */
  datatype Aux = Aux(ring: seq<Cell>, tl: nat)

  function At(b: Block, k: nat): Value
    requires 0 < b.size == |b.data|
  {
    b.data[k % b.size]
  }

  ghost predicate CellOk(b: Block, g: Cell) {
    && g.size == b.size == |b.data| && b.size >= 2 && g.f <= g.t < g.f + g.size
    && b.front == g.f % g.size && b.tail == g.t % g.size
  }

  ghost predicate Placed(blocks: seq<Block>, ring: seq<Cell>) {
    && (forall i | 0 <= i < |ring| :: ring[i].id < |blocks| && CellOk(blocks[ring[i].id], ring[i]))
    && (forall i, j | 0 <= i < j < |ring| :: ring[i].id != ring[j].id)
  }

  ghost predicate Links(blocks: seq<Block>, ring: seq<Cell>) {
    forall i, j | 0 <= i < |ring| && j == (if i + 1 < |ring| then i + 1 else 0) ::
      ring[i].id < |blocks| && blocks[ring[i].id].next == ring[j].id
  }

  ghost predicate Ends(ring: seq<Cell>, tl: nat, fb: nat, tb: nat) {
    tl < |ring| && ring[0].id == fb && ring[tl].id == tb
  }

  ghost predicate Holds(b: Block, g: Cell, enq: seq<Value>) {
    && 0 < b.size == |b.data| && 0 <= g.off + g.f && g.off + g.t <= |enq|
    && forall k: nat | g.f <= k < g.t :: At(b, k) == enq[g.off + k]
  }

  ghost predicate Stored(blocks: seq<Block>, ring: seq<Cell>, tl: nat, enq: seq<Value>) {
    forall i | 0 <= i < |ring| && i <= tl :: ring[i].id < |blocks| && Holds(blocks[ring[i].id], ring[i], enq)
  }

  /** The elements in front-to-tail order are exactly those enqueued and not yet dequeued. */
  ghost predicate Chain(ring: seq<Cell>, tl: nat, nd: nat, ne: nat) {
    && tl < |ring| && ring[0].off + ring[0].f == nd && ring[tl].off + ring[tl].t == ne
    && forall i, j | 0 <= i < tl && j == i + 1 :: ring[i].off + ring[i].t == ring[j].off + ring[j].f
  }

  /** Behind the front block nothing up to the tail block is empty, and all before the tail block is full. */
  ghost predicate Loaded(ring: seq<Cell>, tl: nat) {
    forall i | 0 < i < |ring| && i <= tl ::
      ring[i].f < ring[i].t && (i < tl ==> ring[i].t == ring[i].f + ring[i].size - 1)
  }

  ghost predicate Spare(ring: seq<Cell>, tl: nat, pending: bool) {
    forall i | tl < i < |ring| :: (pending && i == tl + 1) || ring[i].f == ring[i].t
  }

  ghost predicate FrontKnown(b: Block, g: Cell) {
    g.size > 0 && g.f <= g.lt <= g.t && b.localTail == g.lt % g.size
  }

  ghost predicate TailKnown(b: Block, g: Cell) {
    g.size > 0 && g.lf <= g.f && g.t < g.lf + g.size && b.localFront == g.lf % g.size
  }

  ghost predicate Known(blocks: seq<Block>, ring: seq<Cell>, tl: nat) {
    && tl < |ring| && ring[0].id < |blocks| && ring[tl].id < |blocks|
    && FrontKnown(blocks[ring[0].id], ring[0]) && TailKnown(blocks[ring[tl].id], ring[tl])
  }

  ghost predicate Filled(ring: seq<Cell>, tl: nat)
    requires tl < |ring|
  {
    tl > 0 ==> ring[tl].t == ring[tl].f + ring[tl].size - 1
  }

  /** The next block is about to become the tail block. */
  ghost predicate Ahead(blocks: seq<Block>, ring: seq<Cell>, tl: nat)
    requires tl < |ring|
  {
    Filled(ring, tl) && tl + 1 < |ring| && ring[tl + 1].id < |blocks|
  }

  ghost predicate ProdOk(p: Producer, blocks: seq<Block>, ring: seq<Cell>, tl: nat, enq: seq<Value>, nd: nat) {
    && tl < |ring| && ring[tl].id < |blocks|
    && var b, g := blocks[ring[tl].id], ring[tl];
    match p
    case PIdle => true
    case PFront(v, _) => true
    case PWrite(v) => g.t + 1 < g.lf + g.size
    case PTail(v) => g.t + 1 < g.lf + g.size && 0 < b.size == |b.data| && At(b, g.t) == v
    case PCheck(v, _, was) => Filled(ring, tl) && was <= nd && |enq| - was >= g.size - 1
    case PAlloc(v) => Filled(ring, tl)
    case PNextFront(v) => Ahead(blocks, ring, tl)
    case PNextWrite(v) =>
      Ahead(blocks, ring, tl) && ring[tl + 1].lf == ring[tl + 1].f && TailKnown(blocks[ring[tl + 1].id], ring[tl + 1])
    case PNextTail(v) =>
      && Ahead(blocks, ring, tl) && ring[tl + 1].lf == ring[tl + 1].f &&
        TailKnown(blocks[ring[tl + 1].id], ring[tl + 1])
      && var nb := blocks[ring[tl + 1].id];
      0 < nb.size == |nb.data| && At(nb, ring[tl + 1].t) == v
    case PLink(v, nb) =>
      && Filled(ring, tl) && nb < |blocks| && (forall i | 0 <= i < |ring| :: ring[i].id != nb)
      && NewBlock(blocks[nb], b.next, v)
    case PPublish(v, nb) =>
      && Ahead(blocks, ring, tl) && ring[tl + 1].id == nb && Pending(blocks[nb], ring[tl + 1], v, |enq|)
  }

  ghost predicate NewBlock(b: Block, next: nat, v: Value) {
    && b.size == |b.data| && b.size >= 2 && b.front == 0 && b.tail == 1 && b.localFront == 0 && b.localTail == 1
    && b.next == next && b.data[0] == v
  }

  ghost predicate Pending(b: Block, g: Cell, v: Value, ne: nat) {
    0 < b.size == |b.data| && g.t == g.f + 1 && TailKnown(b, g) && At(b, g.f) == v && g.off + g.f == ne
  }

  ghost predicate ConsOk(q: Consumer, blocks: seq<Block>, ring: seq<Cell>, tl: nat, enq: seq<Value>, nd: nat) {
    && tl < |ring|
    && match q
       case CIdle => true
       case CTail(k) => true
       case CTailBlock(k, had) => tl == 0 ==> had == nd
       case CTailAgain(k) => tl > 0
       case CNext(k) => Drained(ring, tl)
       case CNextTail(k, nb) => Drained(ring, tl) && ring[1].id == nb
       case CAdvance(nb) =>
         Drained(ring, tl) && ring[1].id == nb && nb < |blocks| && FrontKnown(blocks[nb], ring[1]) &&
           ring[1].f < ring[1].lt
       case CRead(k, b) =>
         || (b == ring[0].id && ring[0].f < ring[0].lt)
         || (k == Peek && Drained(ring, tl) && b == ring[1].id)
       case CFront(x) => ring[0].f < ring[0].lt && nd < |enq| && x == enq[nd]
  }

  /** The front block is empty for good: the producer has moved on. */
  ghost predicate Drained(ring: seq<Cell>, tl: nat)
    requires tl < |ring|
  {
    tl > 0 && ring[0].f == ring[0].t
  }

  ghost predicate Logged(enq: seq<Value>, deq: seq<Value>, peeks: seq<(nat, Value)>) {
    && deq <= enq
    && forall i | 0 <= i < |peeks| :: peeks[i].0 < |enq| && peeks[i].1 == enq[peeks[i].0]
  }

  ghost predicate Roomy(c: Config, ring: seq<Cell>, largest: nat, p: Producer, blocks: seq<Block>)
    requires c.maxBlock >= 2
  {
    && |ring| >= Count(c) && largest >= Base(c) && largest >= 2 &&
      (forall i | 0 <= i < |ring| :: ring[i].size >= Base(c))
    && (p.PLink? ==> p.nb < |blocks| && blocks[p.nb].size >= Base(c))
  }

  ghost predicate Inv(c: Config, s: State, a: Aux)
    requires c.maxBlock >= 2
  {
    && Ends(a.ring, a.tl, s.frontBlock, s.tailBlock)
    && Placed(s.blocks, a.ring)
    && Links(s.blocks, a.ring)
    && Stored(s.blocks, a.ring, a.tl, s.enq)
    && Chain(a.ring, a.tl, |s.deq|, |s.enq|)
    && Loaded(a.ring, a.tl)
    && Spare(a.ring, a.tl, s.prod.PPublish?)
    && Known(s.blocks, a.ring, a.tl)
    && ProdOk(s.prod, s.blocks, a.ring, a.tl, s.enq, |s.deq|)
    && ConsOk(s.cons, s.blocks, a.ring, a.tl, s.enq, |s.deq|)
    && Logged(s.enq, s.deq, s.peeks)
    && Roomy(c, a.ring, s.largest, s.prod, s.blocks)
  }

  function FirstRing(n: nat, size: nat): seq<Cell> { seq(n, i requires 0 <= i < n => Cell(i, size, 0, 0, 0, 0, 0)) }

  lemma FirstBlocks(n: nat, size: nat)
    requires n >= 1 && size >= 2
    ensures Placed(Circle(n, size), FirstRing(n, size)) && Links(Circle(n, size), FirstRing(n, size))
  {
    ModArith.ModSmall(0, size);
    var blocks := Circle(n, size);
    forall i | 0 <= i < n
      ensures blocks[i] == Fresh(size, if i + 1 < n then i + 1 else 0)
    {
    }
  }

  lemma InitInv(c: Config) returns (a: Aux)
    requires Sane(c)
    ensures Inv(c, Init(c), a)
  {
    hide Placed, Links, IsPow2, IsCeil, Count, Base;
    CountPositive(c);
    var n, size := Count(c), Base(c);
    a := Aux(FirstRing(n, size), 0);
    FirstBlocks(n, size);
    ModArith.ModSmall(0, size);
    assert Init(c).blocks[0] == Fresh(size, if 1 < n then 1 else 0);
  }

  // ---------------------------------------------------------------- one block changes

  /** The i-th linked block becomes b and its counters g, the links staying as they are. */
  lemma Touch(blocks: seq<Block>, ring: seq<Cell>, tl: nat, fb: nat, tb: nat, enq: seq<Value>, i: nat, b: Block,
              g: Cell)
    requires Placed(blocks, ring) && Links(blocks, ring) && Ends(ring, tl, fb, tb) && Stored(blocks, ring, tl, enq)
    requires i < |ring| && g.id == ring[i].id && g.id < |blocks| && b.next == blocks[g.id].next
    requires CellOk(b, g) && (i <= tl ==> Holds(b, g, enq))
    ensures Placed(blocks[g.id := b], ring[i := g]) && Links(blocks[g.id := b], ring[i := g])
    ensures Ends(ring[i := g], tl, fb, tb) && Stored(blocks[g.id := b], ring[i := g], tl, enq)
  {
    hide CellOk, Holds;
  }

  ghost predicate Alike(g: Cell, h: Cell) {
    g.id == h.id && g.size == h.size && g.f == h.f && g.t == h.t && g.off == h.off
  }

  /** Counters that differ in the shadows only. */
  lemma ShadowOnly(ring: seq<Cell>, i: nat, g: Cell, tl: nat, nd: nat, ne: nat, pending: bool)
    requires i < |ring| && Alike(ring[i], g)
    requires Chain(ring, tl, nd, ne) && Loaded(ring, tl) && Spare(ring, tl, pending)
    ensures Chain(ring[i := g], tl, nd, ne) && Loaded(ring[i := g], tl) && Spare(ring[i := g], tl, pending)
  {
  }

  /** The consumer touched a linked block: what the producer relies on still stands. */
  lemma ProdStable(p: Producer, blocks: seq<Block>, ring: seq<Cell>, tl: nat, enq: seq<Value>, nd: nat, nd': nat,
                   i: nat, b: Block, g: Cell)
    requires ProdOk(p, blocks, ring, tl, enq, nd) && nd <= nd'
    requires i < |ring| && ring[i].id < |blocks| && (i > 0 ==> g.f == ring[i].f) && g.f >= ring[i].f
    requires g == ring[i].(f := g.f, lt := g.lt)
    requires b == blocks[g.id].(front := b.front, localTail := b.localTail)
    requires forall j | 0 <= j < |ring| :: j != i ==> ring[j].id != g.id
    ensures ProdOk(p, blocks[g.id := b], ring[i := g], tl, enq, nd')
  {
    var blocks', ring' := blocks[g.id := b], ring[i := g];
    assert forall j | 0 <= j < |ring| :: ring'[j].id == ring[j].id;
    assert forall j | 0 <= j < |blocks| ::
      && blocks'[j].data == blocks[j].data && blocks'[j].size == blocks[j].size
      && blocks'[j].localFront == blocks[j].localFront && blocks'[j].next == blocks[j].next;
  }

  /** The producer touched a linked block: what the consumer relies on still stands. */
  lemma ConsStable(q: Consumer, blocks: seq<Block>, ring: seq<Cell>, tl: nat, enq: seq<Value>, enq': seq<Value>,
                   nd: nat,
                   i: nat, b: Block, g: Cell)
    requires ConsOk(q, blocks, ring, tl, enq, nd) && enq <= enq'
    requires tl <= i < |ring| && ring[i].id < |blocks| && ring[i].t <= g.t
    requires g == ring[i].(t := g.t, lf := g.lf, off := g.off)
    requires b.localTail == blocks[g.id].localTail
    ensures ConsOk(q, blocks[g.id := b], ring[i := g], tl, enq', nd)
  {
  }

  // ---------------------------------------------------------------- slots

  lemma SameSlot(x: nat, y: nat, m: nat)
    requires m > 0 && 0 <= y - x <= m
    ensures x % m == y % m <==> y == x || y == x + m
  {
    var q, r := x / m, x % m;
    assert x == m * q + r;
    if y == x + m {
      ModArith.ModPlus(x, m, 1);
    } else if r + (y - x) < m {
      ModArith.ModIs(y, m, q);
    } else {
      assert m * q == q * m && (q + 1) * m == q * m + m;
      ModArith.ModIs(y, m, q + 1);
    }
  }

  /** The producer's slot is none of the occupied ones. */
  lemma WriteSlot(b: Block, g: Cell, enq: seq<Value>, v: Value)
    requires CellOk(b, g)
    ensures b.tail < |b.data|
    ensures Holds(b, g, enq) ==> Holds(b.(data := b.data[b.tail := v]), g, enq)
    ensures CellOk(b.(data := b.data[b.tail := v]), g) && At(b.(data := b.data[b.tail := v]), g.t) == v
  {
    var b' := b.(data := b.data[b.tail := v]);
    forall k: nat | g.f <= k < g.t
      ensures At(b', k) == At(b, k)
    {
      SameSlot(k, g.t, g.size);
    }
  }

  lemma AppendSlot(b: Block, g: Cell, enq: seq<Value>, v: Value)
    requires CellOk(b, g) && g.t + 1 < g.f + g.size && At(b, g.t) == v
    requires Holds(b, g, enq) && g.off + g.t == |enq|
    ensures Holds(b.(tail := (b.tail + 1) % b.size), g.(t := g.t + 1), enq + [v])
  {
    var b' := b.(tail := (b.tail + 1) % b.size);
    forall k: nat | g.f <= k < g.t + 1
      ensures At(b', k) == (enq + [v])[g.off + k]
    {
      assert At(b', k) == At(b, k);
    }
  }

  lemma TailMoves(b: Block, g: Cell, g': Cell)
    requires CellOk(b, g) && g.t + 1 < g.f + g.size && g' == g.(t := g.t + 1, off := g'.off)
    ensures CellOk(b.(tail := (b.tail + 1) % b.size), g')
  {
    ModArith.ModAdd(g.t, 1, g.size);
  }

  lemma HoldsGrow(blocks: seq<Block>, ring: seq<Cell>, tl: nat, enq: seq<Value>, v: Value)
    requires Stored(blocks, ring, tl, enq)
    ensures Stored(blocks, ring, tl, enq + [v])
  {
    forall i | 0 <= i < |ring| && i <= tl
      ensures ring[i].id < |blocks| && Holds(blocks[ring[i].id], ring[i], enq + [v])
    {
      assert Holds(blocks[ring[i].id], ring[i], enq);
    }
  }

  lemma LoggedGrow(enq: seq<Value>, deq: seq<Value>, peeks: seq<(nat, Value)>, v: Value)
    requires Logged(enq, deq, peeks)
    ensures Logged(enq + [v], deq, peeks)
  {
  }

  lemma {:induction false} ChainUp(blocks: seq<Block>, ring: seq<Cell>, tl: nat, nd: nat, ne: nat, i: nat)
    requires Placed(blocks, ring) && Chain(ring, tl, nd, ne) && i <= tl
    ensures ring[i].off + ring[i].f >= nd
  {
    if i > 0 {
      ChainUp(blocks, ring, tl, nd, ne, i - 1);
      assert CellOk(blocks[ring[i - 1].id], ring[i - 1]);
    }
  }

  // ---------------------------------------------------------------- producer steps

  lemma KnowTail(c: Config, s: State, a: Aux) returns (b: Block, g: Cell)
    requires c.maxBlock >= 2 && Inv(c, s, a)
    ensures a.tl < |a.ring| && g == a.ring[a.tl] && g.id == s.tailBlock && s.tailBlock < |s.blocks| &&
      b == s.blocks[g.id]
    ensures CellOk(b, g) && Holds(b, g, s.enq) && TailKnown(b, g)
    ensures forall j | 0 <= j < |a.ring| :: j != a.tl ==> a.ring[j].id != g.id
  {
    hide CellOk, Holds, TailKnown, Chain, Loaded, Spare, ProdOk, ConsOk, Logged, Roomy, Links;
    b, g := s.blocks[s.tailBlock], a.ring[a.tl];
  }

  lemma KnowFront(c: Config, s: State, a: Aux) returns (b: Block, g: Cell)
    requires c.maxBlock >= 2 && Inv(c, s, a)
    ensures a.tl < |a.ring| && g == a.ring[0] && g.id == s.frontBlock && s.frontBlock < |s.blocks| &&
      b == s.blocks[g.id]
    ensures CellOk(b, g) && Holds(b, g, s.enq) && FrontKnown(b, g)
    ensures forall j | 0 <= j < |a.ring| :: j != 0 ==> a.ring[j].id != g.id
  {
    hide CellOk, Holds, FrontKnown, Chain, Loaded, Spare, ProdOk, ConsOk, Logged, Roomy, Links;
    b, g := s.blocks[s.frontBlock], a.ring[0];
  }

  lemma KnowAhead(c: Config, s: State, a: Aux) returns (b: Block, g: Cell)
    requires c.maxBlock >= 2 && Inv(c, s, a) && a.tl < |a.ring| && Ahead(s.blocks, a.ring, a.tl)
    ensures s.tailBlock < |s.blocks| && g == a.ring[a.tl + 1] && g.id == s.blocks[s.tailBlock].next
    ensures g.id < |s.blocks| && b == s.blocks[g.id] && CellOk(b, g)
    ensures !s.prod.PPublish? ==> g.f == g.t
    ensures forall j | 0 <= j < |a.ring| :: j != a.tl + 1 ==> a.ring[j].id != g.id
  {
    hide CellOk, Stored, Chain, Loaded, ProdOk, ConsOk, Logged, Roomy, Known;
    g := a.ring[a.tl + 1];
    b := s.blocks[g.id];
  }

  /** The producer touched the i-th block. */
  lemma KnownByProducer(blocks: seq<Block>, ring: seq<Cell>, tl: nat, i: nat, b: Block, g: Cell)
    requires Known(blocks, ring, tl) && Placed(blocks, ring) && tl <= i < |ring| && ring[i].id < |blocks|
    requires g == ring[i].(t := g.t, lf := g.lf, off := g.off) && ring[i].t <= g.t
    requires b.localTail == blocks[g.id].localTail && (i == tl ==> TailKnown(b, g))
    ensures Known(blocks[g.id := b], ring[i := g], tl)
  {
    hide CellOk;
  }

  lemma RoomySame(c: Config, ring: seq<Cell>, largest: nat, p: Producer, p': Producer, blocks: seq<Block>, i: nat,
                  b: Block, g: Cell)
    requires c.maxBlock >= 2 && Roomy(c, ring, largest, p, blocks) && i < |ring| && g.size == ring[i].size &&
      g.id < |blocks|
    requires p'.PLink? ==> p == p' && (forall j | 0 <= j < |ring| :: ring[j].id != p.nb) && g.id == ring[i].id
    ensures Roomy(c, ring[i := g], largest, p', blocks[g.id := b])
  {
  }

  /** The producer's steps on its own shadow and on slots nobody reads. */
  lemma KeepQuiet(c: Config, s: State, s': State, a: Aux, i: nat, b: Block, g: Cell) returns (a': Aux)
    requires c.maxBlock >= 2 && Inv(c, s, a) && !s.prod.PPublish? && a.tl <= i < |a.ring| && g.id < |s.blocks|
    requires g == a.ring[i].(lf := g.lf)
    requires b == s.blocks[g.id].(localFront := b.localFront, data := b.data)
    requires CellOk(b, g) && (i == a.tl ==> Holds(b, g, s.enq) && TailKnown(b, g))
    requires s' == s.(blocks := s.blocks[g.id := b], prod := s'.prod) && !s'.prod.PPublish? && !s'.prod.PLink?
    requires ProdOk(s'.prod, s'.blocks, a.ring[i := g], a.tl, s.enq, |s.deq|)
    ensures a' == a.(ring := a.ring[i := g]) && Inv(c, s', a')
  {
    hide Placed, Links, Ends, Stored, Chain, Loaded, Spare, Known, ProdOk, ConsOk, Logged, Roomy, CellOk, Holds,
      TailKnown;
    a' := a.(ring := a.ring[i := g]);
    Touch(s.blocks, a.ring, a.tl, s.frontBlock, s.tailBlock, s.enq, i, b, g);
    ShadowOnly(a.ring, i, g, a.tl, |s.deq|, |s.enq|, false);
    KnownByProducer(s.blocks, a.ring, a.tl, i, b, g);
    ConsStable(s.cons, s.blocks, a.ring, a.tl, s.enq, s.enq, |s.deq|, i, b, g);
    RoomySame(c, a.ring, s.largest, s.prod, s'.prod, s.blocks, i, b, g);
  }

  lemma KnowProd(c: Config, s: State, a: Aux)
    requires c.maxBlock >= 2 && Inv(c, s, a)
    ensures ProdOk(s.prod, s.blocks, a.ring, a.tl, s.enq, |s.deq|) && Placed(s.blocks, a.ring)
    ensures Chain(a.ring, a.tl, |s.deq|, |s.enq|)
  {
  }

  lemma KeepPFront(c: Config, s: State, a: Aux) returns (a': Aux)
    requires c.maxBlock >= 2 && Inv(c, s, a) && s.prod.PFront? && Good(s)
    ensures Inv(c, Produced(c, s, true), a')
  {
    hide Inv, Placed, Links, Ends, Stored, Chain, Loaded, Spare, Known, ConsOk, Logged, Roomy, Holds, Good;
    var b, g := KnowTail(c, s, a);
    KnowProd(c, s, a);
    var g' := g.(lf := g.f);
    var b' := b.(localFront := b.front);
    ModArith.ModAdd(g.t, 1, g.size);
    SameSlot(g.f, g.t + 1, g.size);
    ChainUp(s.blocks, a.ring, a.tl, |s.deq|, |s.enq|, a.tl);
    assert Holds(b', g', s.enq) by { HoldsSame(b, b', g, g', s.enq); }
    KnowChain(a.ring, a.tl, |s.deq|, |s.enq|);
    a' := KeepQuiet(c, s, Produced(c, s, true), a, a.tl, b', g');
  }

  lemma KnowChain(ring: seq<Cell>, tl: nat, nd: nat, ne: nat)
    requires Chain(ring, tl, nd, ne)
    ensures tl < |ring| && ring[0].off + ring[0].f == nd && ring[tl].off + ring[tl].t == ne
  {
  }

  lemma HoldsSame(b: Block, b': Block, g: Cell, g': Cell, enq: seq<Value>)
    requires Holds(b, g, enq) && b'.data == b.data && b'.size == b.size && g'.f >= g.f && g'.t == g.t && g'.off == g.off
    ensures Holds(b', g', enq)
  {
    forall k: nat | g'.f <= k < g'.t
      ensures At(b', k) == enq[g'.off + k]
    {
      assert At(b', k) == At(b, k);
    }
  }

  lemma KeepPWrite(c: Config, s: State, a: Aux) returns (a': Aux)
    requires c.maxBlock >= 2 && Inv(c, s, a) && s.prod.PWrite? && Good(s)
    ensures Inv(c, Produced(c, s, true), a')
  {
    hide Inv, Placed, Links, Ends, Stored, Chain, Loaded, Spare, Known, ConsOk, Logged, Roomy, Holds, Good;
    var b, g := KnowTail(c, s, a);
    KnowProd(c, s, a);
    WriteSlot(b, g, s.enq, s.prod.v);
    a' := KeepQuiet(c, s, Produced(c, s, true), a, a.tl, b.(data := b.data[b.tail := s.prod.v]), g);
  }

  lemma KeepPNextFront(c: Config, s: State, a: Aux) returns (a': Aux)
    requires c.maxBlock >= 2 && Inv(c, s, a) && s.prod.PNextFront? && Good(s)
    ensures Inv(c, Produced(c, s, true), a')
  {
    hide Inv, Placed, Links, Ends, Stored, Chain, Loaded, Spare, Known, ConsOk, Logged, Roomy, Holds, Good;
    KnowProd(c, s, a);
    var b, g := KnowAhead(c, s, a);
    a' := KeepQuiet(c, s, Produced(c, s, true), a, a.tl + 1, b.(localFront := b.front), g.(lf := g.f));
  }

  lemma KeepPNextWrite(c: Config, s: State, a: Aux) returns (a': Aux)
    requires c.maxBlock >= 2 && Inv(c, s, a) && s.prod.PNextWrite? && Good(s)
    ensures Inv(c, Produced(c, s, true), a')
  {
    hide Inv, Placed, Links, Ends, Stored, Chain, Loaded, Spare, Known, ConsOk, Logged, Roomy, Holds, Good;
    KnowProd(c, s, a);
    var b, g := KnowAhead(c, s, a);
    WriteSlot(b, g, s.enq, s.prod.v);
    a' := KeepQuiet(c, s, Produced(c, s, true), a, a.tl + 1, b.(data := b.data[b.tail := s.prod.v]), g);
  }

  lemma ChainAppend(ring: seq<Cell>, tl: nat, nd: nat, ne: nat, pending: bool, g: Cell)
    requires Chain(ring, tl, nd, ne) && Loaded(ring, tl) && Spare(ring, tl, pending) &&
      g == ring[tl].(t := ring[tl].t + 1)
    ensures Chain(ring[tl := g], tl, nd, ne + 1) && Loaded(ring[tl := g], tl) && Spare(ring[tl := g], tl, pending)
  {
  }

  lemma KeepPTail(c: Config, s: State, a: Aux) returns (a': Aux)
    requires c.maxBlock >= 2 && Inv(c, s, a) && s.prod.PTail? && Good(s)
    ensures Inv(c, Produced(c, s, true), a')
  {
    hide Placed, Links, Ends, Stored, Chain, Loaded, Spare, Known, ConsOk, Logged, Roomy, Holds, Good;
    var b, g := KnowTail(c, s, a);
    var v := s.prod.v;
    var g' := g.(t := g.t + 1);
    var b' := b.(tail := (b.tail + 1) % b.size);
    a' := a.(ring := a.ring[a.tl := g']);
    KnowChain(a.ring, a.tl, |s.deq|, |s.enq|);
    TailMoves(b, g, g');
    AppendSlot(b, g, s.enq, v);
    HoldsGrow(s.blocks, a.ring, a.tl, s.enq, v);
    Touch(s.blocks, a.ring, a.tl, s.frontBlock, s.tailBlock, s.enq + [v], a.tl, b', g');
    ChainAppend(a.ring, a.tl, |s.deq|, |s.enq|, false, g');
    KnownByProducer(s.blocks, a.ring, a.tl, a.tl, b', g');
    ConsStable(s.cons, s.blocks, a.ring, a.tl, s.enq, s.enq + [v], |s.deq|, a.tl, b', g');
    LoggedGrow(s.enq, s.deq, s.peeks, v);
    RoomySame(c, a.ring, s.largest, s.prod, PIdle, s.blocks, a.tl, b', g');
  }

  lemma SpareTouched(ring: seq<Cell>, tl: nat, nd: nat, ne: nat, g: Cell)
    requires tl + 1 < |ring| && Chain(ring, tl, nd, ne) && Loaded(ring, tl) && Spare(ring, tl, false)
    ensures Chain(ring[tl + 1 := g], tl, nd, ne) && Loaded(ring[tl + 1 := g], tl) && Spare(ring[tl + 1 := g], tl, true)
  {
  }

  lemma KeepPNextTail(c: Config, s: State, a: Aux) returns (a': Aux)
    requires c.maxBlock >= 2 && Inv(c, s, a) && s.prod.PNextTail? && Good(s)
    ensures Inv(c, Produced(c, s, true), a')
  {
    hide Placed, Links, Ends, Stored, Chain, Loaded, Spare, Known, ConsOk, Logged, Roomy, Holds, Good;
    var b, g := KnowAhead(c, s, a);
    var g' := g.(t := g.t + 1, off := |s.enq| - g.f);
    var b' := b.(tail := (b.tail + 1) % b.size);
    a' := a.(ring := a.ring[a.tl + 1 := g']);
    TailMoves(b, g, g');
    Touch(s.blocks, a.ring, a.tl, s.frontBlock, s.tailBlock, s.enq, a.tl + 1, b', g');
    SpareTouched(a.ring, a.tl, |s.deq|, |s.enq|, g');
    KnownByProducer(s.blocks, a.ring, a.tl, a.tl + 1, b', g');
    ConsStable(s.cons, s.blocks, a.ring, a.tl, s.enq, s.enq, |s.deq|, a.tl + 1, b', g');
    RoomySame(c, a.ring, s.largest, s.prod, PPublish(s.prod.v, g.id), s.blocks, a.tl + 1, b', g');
    assert At(b', g'.f) == At(b, g.t);
  }

  lemma ChainPublish(ring: seq<Cell>, tl: nat, nd: nat, ne: nat)
    requires Chain(ring, tl, nd, ne) && Loaded(ring, tl) && Spare(ring, tl, true) && Filled(ring, tl)
    requires tl + 1 < |ring| && ring[tl + 1].t == ring[tl + 1].f + 1 && ring[tl + 1].off + ring[tl + 1].f == ne
    ensures Chain(ring, tl + 1, nd, ne + 1) && Loaded(ring, tl + 1) && Spare(ring, tl + 1, false)
  {
  }

  lemma StoredPublish(blocks: seq<Block>, ring: seq<Cell>, tl: nat, enq: seq<Value>, v: Value)
    requires Stored(blocks, ring, tl, enq) && tl + 1 < |ring| && ring[tl + 1].id < |blocks|
    requires Pending(blocks[ring[tl + 1].id], ring[tl + 1], v, |enq|)
    ensures Stored(blocks, ring, tl + 1, enq + [v])
  {
    HoldsGrow(blocks, ring, tl, enq, v);
    var b, g := blocks[ring[tl + 1].id], ring[tl + 1];
    assert forall k: nat | g.f <= k < g.t :: At(b, k) == v;
  }

  lemma ConsPublish(q: Consumer, blocks: seq<Block>, ring: seq<Cell>, tl: nat, enq: seq<Value>, v: Value, nd: nat)
    requires ConsOk(q, blocks, ring, tl, enq, nd) && tl + 1 < |ring|
    ensures ConsOk(q, blocks, ring, tl + 1, enq + [v], nd)
  {
  }

  lemma KeepPPublish(c: Config, s: State, a: Aux) returns (a': Aux)
    requires c.maxBlock >= 2 && Inv(c, s, a) && s.prod.PPublish? && Good(s)
    ensures Inv(c, Produced(c, s, true), a')
  {
    hide Placed, Links, Stored, Chain, Loaded, Spare, ConsOk, Logged, Roomy, Holds, Good;
    var v := s.prod.v;
    a' := a.(tl := a.tl + 1);
    ChainPublish(a.ring, a.tl, |s.deq|, |s.enq|);
    StoredPublish(s.blocks, a.ring, a.tl, s.enq, v);
    ConsPublish(s.cons, s.blocks, a.ring, a.tl, s.enq, v, |s.deq|);
    LoggedGrow(s.enq, s.deq, s.peeks, v);
    RoomyIdle(c, a.ring, s.largest, s.prod, PIdle, s.blocks);
  }

  lemma RoomyIdle(c: Config, ring: seq<Cell>, largest: nat, p: Producer, p': Producer, blocks: seq<Block>)
    requires c.maxBlock >= 2 && Roomy(c, ring, largest, p, blocks) && !p'.PLink?
    ensures Roomy(c, ring, largest, p', blocks)
  {
  }

  /** Only the producer's place in the code changes. */
  lemma KeepProdPc(c: Config, s: State, a: Aux, p: Producer)
    requires c.maxBlock >= 2 && Inv(c, s, a) && !s.prod.PPublish? && !p.PPublish? && !p.PLink?
    requires ProdOk(p, s.blocks, a.ring, a.tl, s.enq, |s.deq|)
    ensures Inv(c, s.(prod := p), a)
  {
    hide Placed, Links, Ends, Stored, Chain, Loaded, Known, ConsOk, Logged, Roomy, Spare;
    RoomyIdle(c, a.ring, s.largest, s.prod, p, s.blocks);
  }

  lemma KnowWrap(blocks: seq<Block>, ring: seq<Cell>, tl: nat, fb: nat, tb: nat)
    requires Links(blocks, ring) && Ends(ring, tl, fb, tb) && Placed(blocks, ring)
    ensures tb < |blocks| && (blocks[tb].next == fb <==> tl + 1 == |ring|)
  {
    hide CellOk;
    var j := if tl + 1 < |ring| then tl + 1 else 0;
    assert blocks[ring[tl].id].next == ring[j].id;
  }

  lemma KeepPCheck(c: Config, s: State, a: Aux) returns (a': Aux)
    requires c.maxBlock >= 2 && Inv(c, s, a) && s.prod.PCheck? && Good(s)
    ensures Inv(c, Produced(c, s, true), a')
  {
    KnowWrap(s.blocks, a.ring, a.tl, s.frontBlock, s.tailBlock);
    a' := a;
    hide Links, Ends, Stored, Chain, Loaded, Known, ConsOk, Logged, Roomy, Spare, CellOk, Good;
    KeepProdPc(c, s, a, Produced(c, s, true).prod);
  }

  lemma KeepEnqueue(c: Config, s: State, a: Aux, v: Value, alloc: bool)
    requires c.maxBlock >= 2 && Inv(c, s, a) && Good(s)
    ensures Inv(c, Next(c, s, Enqueue(v, alloc)), a)
  {
    if s.prod == PIdle {
      var b, g := KnowTail(c, s, a);
      hide Placed, Links, Ends, Stored, Chain, Loaded, Known, ConsOk, Logged, Roomy, Spare, Good;
      ModArith.ModAdd(g.t, 1, g.size);
      SameSlot(g.lf, g.t + 1, g.size);
      KeepProdPc(c, s, a, Next(c, s, Enqueue(v, alloc)).prod);
    }
  }

  // ---------------------------------------------------------------- a block is made and linked in

  lemma BlocksGrow(blocks: seq<Block>, nb: Block, ring: seq<Cell>, tl: nat, enq: seq<Value>, q: Consumer, nd: nat)
    requires Placed(blocks, ring) && Links(blocks, ring) && Stored(blocks, ring, tl, enq) && Known(blocks, ring, tl)
    requires ConsOk(q, blocks, ring, tl, enq, nd)
    ensures Placed(blocks + [nb], ring) && Links(blocks + [nb], ring) && Stored(blocks + [nb], ring, tl, enq)
    ensures Known(blocks + [nb], ring, tl) && ConsOk(q, blocks + [nb], ring, tl, enq, nd)
  {
    hide CellOk, Holds, TailKnown, FrontKnown;
  }

  lemma KeepPAlloc(c: Config, s: State, a: Aux, memory: bool) returns (a': Aux)
    requires c.maxBlock >= 2 && Inv(c, s, a) && s.prod.PAlloc? && Good(s)
    ensures Inv(c, Produced(c, s, memory), a')
  {
    a' := a;
    if !memory {
      hide Placed, Links, Ends, Stored, Chain, Loaded, Known, ConsOk, Logged, Roomy, Spare, Good;
      KeepProdPc(c, s, a, PIdle);
    } else {
      var s' := Produced(c, s, memory);
      hide Links, Stored, Chain, Loaded, Known, ConsOk, Logged, Spare, Good, CellOk;
      var nb := s'.blocks[|s.blocks|];
      assert s'.blocks == s.blocks + [nb];
      BlocksGrow(s.blocks, nb, a.ring, a.tl, s.enq, s.cons, |s.deq|);
      assert s'.blocks[s.tailBlock] == s.blocks[s.tailBlock];
    }
  }

  function Insert(ring: seq<Cell>, tl: nat, g: Cell): (r: seq<Cell>)
    requires tl < |ring|
    ensures |r| == |ring| + 1
    ensures forall i | 0 <= i < |r| :: r[i] == if i <= tl then ring[i] else if i == tl + 1 then g else ring[i - 1]
  {
    ring[..tl + 1] + [g] + ring[tl + 1..]
  }

  lemma PlacedInsert(blocks: seq<Block>, ring: seq<Cell>, tl: nat, g: Cell, b: Block)
    requires Placed(blocks, ring) && tl < |ring| && g.id < |blocks| && CellOk(blocks[g.id], g)
    requires forall i | 0 <= i < |ring| :: ring[i].id != g.id
    requires b == blocks[ring[tl].id].(next := b.next)
    ensures Placed(blocks[ring[tl].id := b], Insert(ring, tl, g))
  {
    var blocks', ring' := blocks[ring[tl].id := b], Insert(ring, tl, g);
    forall i | 0 <= i < |ring'|
      ensures ring'[i].id < |blocks'| && CellOk(blocks'[ring'[i].id], ring'[i])
    {
      if i <= tl { assert CellOk(blocks[ring[i].id], ring[i]); }
      if i > tl + 1 { assert CellOk(blocks[ring[i - 1].id], ring[i - 1]); }
    }
    forall i, j | 0 <= i < j < |ring'|
      ensures ring'[i].id != ring'[j].id
    {
      hide CellOk;
    }
  }

  lemma LinksInsert(blocks: seq<Block>, ring: seq<Cell>, tl: nat, g: Cell, b: Block)
    requires Placed(blocks, ring) && Links(blocks, ring) && tl < |ring| && g.id < |blocks|
    requires forall i | 0 <= i < |ring| :: ring[i].id != g.id
    requires blocks[g.id].next == blocks[ring[tl].id].next && b.next == g.id
    ensures Links(blocks[ring[tl].id := b], Insert(ring, tl, g))
  {
    hide CellOk;
    var blocks', ring' := blocks[ring[tl].id := b], Insert(ring, tl, g);
    forall i, j | 0 <= i < |ring'| && j == (if i + 1 < |ring'| then i + 1 else 0)
      ensures ring'[i].id < |blocks'| && blocks'[ring'[i].id].next == ring'[j].id
    {
      if i != tl {
        var k := if i < tl then i else i - 1;
        var l := if k + 1 < |ring| then k + 1 else 0;
        assert blocks[ring[k].id].next == ring[l].id;
      }
    }
  }

  lemma ChainInsert(ring: seq<Cell>, tl: nat, nd: nat, ne: nat, g: Cell)
    requires Chain(ring, tl, nd, ne) && Loaded(ring, tl) && Spare(ring, tl, false)
    ensures Chain(Insert(ring, tl, g), tl, nd, ne) && Loaded(Insert(ring, tl, g), tl) &&
      Spare(Insert(ring, tl, g), tl, true)
  {
    var ring' := Insert(ring, tl, g);
    assert forall i | tl + 1 < i < |ring'| :: ring'[i] == ring[i - 1];
  }

  lemma StoredInsert(blocks: seq<Block>, ring: seq<Cell>, tl: nat, enq: seq<Value>, g: Cell, b: Block)
    requires Placed(blocks, ring) && Stored(blocks, ring, tl, enq) && Known(blocks, ring, tl)
    requires b == blocks[ring[tl].id].(next := b.next)
    ensures Stored(blocks[ring[tl].id := b], Insert(ring, tl, g), tl, enq)
    ensures Known(blocks[ring[tl].id := b], Insert(ring, tl, g), tl)
  {
    var blocks', ring' := blocks[ring[tl].id := b], Insert(ring, tl, g);
    HoldsAfterLink(blocks, ring, tl, enq, b);
    forall i | 0 <= i < |ring'| && i <= tl
      ensures ring'[i].id < |blocks'| && Holds(blocks'[ring'[i].id], ring'[i], enq)
    {
      hide Holds, CellOk, Known;
      assert ring'[i] == ring[i];
    }
  }

  lemma HoldsAfterLink(blocks: seq<Block>, ring: seq<Cell>, tl: nat, enq: seq<Value>, b: Block)
    requires Placed(blocks, ring) && Stored(blocks, ring, tl, enq) && tl < |ring| && ring[tl].id < |blocks|
    requires b == blocks[ring[tl].id].(next := b.next)
    ensures Stored(blocks[ring[tl].id := b], ring, tl, enq)
  {
    HoldsSame(blocks[ring[tl].id], b, ring[tl], ring[tl], enq);
    hide Holds, CellOk;
  }

  lemma ConsInsert(q: Consumer, blocks: seq<Block>, ring: seq<Cell>, tl: nat, enq: seq<Value>, nd: nat, g: Cell,
                   b: Block)
    requires ConsOk(q, blocks, ring, tl, enq, nd) && ring[tl].id < |blocks|
    requires b == blocks[ring[tl].id].(next := b.next)
    ensures ConsOk(q, blocks[ring[tl].id := b], Insert(ring, tl, g), tl, enq, nd)
  {
    var ring' := Insert(ring, tl, g);
    assert ring'[0] == ring[0] && (tl > 0 ==> ring'[1] == ring[1]);
  }

  lemma RoomyInsert(c: Config, ring: seq<Cell>, tl: nat, largest: nat, p: Producer, p': Producer, blocks: seq<Block>,
                    blocks': seq<Block>, g: Cell)
    requires c.maxBlock >= 2 && Roomy(c, ring, largest, p, blocks) && !p'.PLink? && tl < |ring| && g.size >= Base(c)
    ensures Roomy(c, Insert(ring, tl, g), largest, p', blocks')
  {
  }

  lemma NewCell(b: Block, g: Cell, next: nat, v: Value, ne: nat)
    requires NewBlock(b, next, v) && g == Cell(g.id, b.size, 0, 1, 0, 1, ne)
    ensures CellOk(b, g) && Pending(b, g, v, ne)
  {
    ModArith.ModSmall(0, b.size);
    ModArith.ModSmall(1, b.size);
  }

  lemma KeepPLink(c: Config, s: State, a: Aux) returns (a': Aux)
    requires c.maxBlock >= 2 && Inv(c, s, a) && s.prod.PLink? && Good(s)
    ensures Inv(c, Produced(c, s, true), a')
  {
    hide Placed, Links, Stored, Chain, Loaded, Spare, Known, ConsOk, Logged, Roomy, Holds, Good, NewBlock, Pending,
      CellOk, TailKnown;
    var b, h := KnowTail(c, s, a);
    var nb, v := s.prod.nb, s.prod.v;
    var g := Cell(nb, s.blocks[nb].size, 0, 1, 0, 1, |s.enq|);
    NewCell(s.blocks[nb], g, b.next, v, |s.enq|);
    var b' := b.(next := nb);
    KnowNewNext(s.blocks[nb], b.next, v);
    PlacedInsert(s.blocks, a.ring, a.tl, g, b');
    LinksInsert(s.blocks, a.ring, a.tl, g, b');
    ChainInsert(a.ring, a.tl, |s.deq|, |s.enq|, g);
    StoredInsert(s.blocks, a.ring, a.tl, s.enq, g, b');
    ConsInsert(s.cons, s.blocks, a.ring, a.tl, s.enq, |s.deq|, g, b');
    var s' := Produced(c, s, true);
    a' := Aux(Insert(a.ring, a.tl, g), a.tl);
    KnowNewSize(c, a.ring, s.largest, s.prod, s.blocks);
    RoomyInsert(c, a.ring, a.tl, s.largest, s.prod, s'.prod, s.blocks, s'.blocks, g);
    assert a'.ring[a.tl] == h && a'.ring[a.tl + 1] == g && a'.ring[0] == a.ring[0];
  }

  lemma KnowNewNext(b: Block, next: nat, v: Value)
    requires NewBlock(b, next, v)
    ensures b.next == next
  {
  }

  lemma KnowNewSize(c: Config, ring: seq<Cell>, largest: nat, p: Producer, blocks: seq<Block>)
    requires c.maxBlock >= 2 && Roomy(c, ring, largest, p, blocks) && p.PLink?
    ensures p.nb < |blocks| && blocks[p.nb].size >= Base(c)
  {
  }

  // ---------------------------------------------------------------- consumer steps

  lemma KnownByConsumer(blocks: seq<Block>, ring: seq<Cell>, tl: nat, i: nat, b: Block, g: Cell)
    requires Known(blocks, ring, tl) && Placed(blocks, ring) && i < |ring| && ring[i].id < |blocks|
    requires g == ring[i].(f := g.f, lt := g.lt) && g.f >= ring[i].f
    requires b == blocks[g.id].(front := b.front, localTail := b.localTail) && (i == 0 ==> FrontKnown(b, g))
    ensures Known(blocks[g.id := b], ring[i := g], tl)
  {
    hide CellOk;
  }

  /** The consumer refreshes its shadow of the i-th block. */
  lemma KeepLook(c: Config, s: State, s': State, a: Aux, i: nat, b: Block, g: Cell) returns (a': Aux)
    requires c.maxBlock >= 2 && Inv(c, s, a) && i <= a.tl < |a.ring| && a.ring[i].id < |s.blocks|
    requires CellOk(s.blocks[a.ring[i].id], a.ring[i])
    requires g == a.ring[i].(lt := a.ring[i].t) && b == s.blocks[g.id].(localTail := s.blocks[g.id].tail)
    requires s' == s.(blocks := s.blocks[g.id := b], cons := s'.cons)
    requires ConsOk(s'.cons, s'.blocks, a.ring[i := g], a.tl, s.enq, |s.deq|)
    ensures a' == a.(ring := a.ring[i := g]) && Inv(c, s', a')
  {
    a' := a.(ring := a.ring[i := g]);
    KeepLookParts(s, a, i, b, g);
    hide Placed, Links, Ends, Stored, Chain, Loaded, Spare, Known, ProdOk, ConsOk, Logged, Roomy, CellOk, Holds,
      TailKnown, FrontKnown;
    Touch(s.blocks, a.ring, a.tl, s.frontBlock, s.tailBlock, s.enq, i, b, g);
    ShadowOnly(a.ring, i, g, a.tl, |s.deq|, |s.enq|, s.prod.PPublish?);
    KnownByConsumer(s.blocks, a.ring, a.tl, i, b, g);
    ProdStable(s.prod, s.blocks, a.ring, a.tl, s.enq, |s.deq|, |s.deq|, i, b, g);
    KnowPending(s.prod, s.blocks, a.ring, a.tl, s.enq, |s.deq|);
    RoomySame(c, a.ring, s.largest, s.prod, s.prod, s.blocks, i, b, g);
  }

  lemma KeepLookParts(s: State, a: Aux, i: nat, b: Block, g: Cell)
    requires Placed(s.blocks, a.ring) && Stored(s.blocks, a.ring, a.tl, s.enq)
    requires i <= a.tl < |a.ring| && a.ring[i].id < |s.blocks|
    requires g == a.ring[i].(lt := a.ring[i].t) && b == s.blocks[g.id].(localTail := s.blocks[g.id].tail)
    ensures CellOk(b, g) && Holds(b, g, s.enq) && FrontKnown(b, g)
    ensures forall j | 0 <= j < |a.ring| :: j != i ==> a.ring[j].id != g.id
  {
    hide Holds;
    assert Holds(s.blocks[g.id], a.ring[i], s.enq);
    HoldsSame(s.blocks[g.id], b, a.ring[i], g, s.enq);
  }

  lemma KnowPending(p: Producer, blocks: seq<Block>, ring: seq<Cell>, tl: nat, enq: seq<Value>, nd: nat)
    requires ProdOk(p, blocks, ring, tl, enq, nd)
    ensures p.PLink? ==> forall j | 0 <= j < |ring| :: ring[j].id != p.nb
  {
  }

  /** Only the consumer's place in the code changes. */
  lemma KeepConsPc(c: Config, s: State, a: Aux, q: Consumer)
    requires c.maxBlock >= 2 && Inv(c, s, a) && ConsOk(q, s.blocks, a.ring, a.tl, s.enq, |s.deq|)
    ensures Inv(c, s.(cons := q), a)
  {
    hide Placed, Links, Ends, Stored, Chain, Loaded, Known, ProdOk, ConsOk, Logged, Roomy, Spare;
  }

  lemma KeepCTail(c: Config, s: State, a: Aux) returns (a': Aux)
    requires c.maxBlock >= 2 && Inv(c, s, a) && s.cons.CTail? && Good(s)
    ensures Inv(c, Consumed(s), a')
  {
    hide Placed, Links, Ends, Stored, Loaded, Spare, Known, ProdOk, Logged, Roomy, Holds, Good;
    var b, g := KnowFront(c, s, a);
    SameSlot(g.f, g.t, g.size);
    KnowChain(a.ring, a.tl, |s.deq|, |s.enq|);
    a' := KeepLook(c, s, Consumed(s), a, 0, b.(localTail := b.tail), g.(lt := g.t));
  }

  lemma KeepCTailAgain(c: Config, s: State, a: Aux) returns (a': Aux)
    requires c.maxBlock >= 2 && Inv(c, s, a) && s.cons.CTailAgain? && Good(s)
    ensures Inv(c, Consumed(s), a')
  {
    hide Placed, Links, Ends, Stored, Chain, Loaded, Spare, Known, ProdOk, Logged, Roomy, Holds, Good;
    var b, g := KnowFront(c, s, a);
    SameSlot(g.f, g.t, g.size);
    a' := KeepLook(c, s, Consumed(s), a, 0, b.(localTail := b.tail), g.(lt := g.t));
  }

  lemma KeepCTailBlock(c: Config, s: State, a: Aux)
    requires c.maxBlock >= 2 && Inv(c, s, a) && s.cons.CTailBlock? && Good(s)
    ensures Inv(c, Consumed(s), a)
  {
    hide Placed, Links, Stored, Chain, Loaded, Spare, Known, ProdOk, Logged, Roomy, Good;
    KeepConsPc(c, s, a, Consumed(s).cons);
  }

  lemma KnowSecond(c: Config, s: State, a: Aux) returns (b: Block, g: Cell)
    requires c.maxBlock >= 2 && Inv(c, s, a) && a.tl > 0
    ensures a.tl < |a.ring| && s.frontBlock < |s.blocks| && g == a.ring[1] && g.id == s.blocks[s.frontBlock].next
    ensures g.id < |s.blocks| && b == s.blocks[g.id] && CellOk(b, g) && Holds(b, g, s.enq) && g.f < g.t
    ensures a.ring[0].f == a.ring[0].t ==> g.off + g.f == |s.deq|
  {
    hide CellOk, ProdOk, ConsOk, Logged, Roomy, Known, Holds, Spare;
    g := a.ring[1];
    b := s.blocks[g.id];
    assert s.blocks[a.ring[0].id].next == a.ring[1].id;
    assert a.ring[0].off + a.ring[0].t == g.off + g.f;
  }

  lemma KeepCNext(c: Config, s: State, a: Aux)
    requires c.maxBlock >= 2 && Inv(c, s, a) && s.cons.CNext? && Good(s)
    ensures Inv(c, Consumed(s), a)
  {
    hide Placed, Links, Stored, Chain, Loaded, Spare, Known, ProdOk, Logged, Roomy, Good, Holds, CellOk;
    var b, g := KnowSecond(c, s, a);
    KeepConsPc(c, s, a, Consumed(s).cons);
  }

  lemma KeepCNextTail(c: Config, s: State, a: Aux) returns (a': Aux)
    requires c.maxBlock >= 2 && Inv(c, s, a) && s.cons.CNextTail? && Good(s)
    ensures Inv(c, Consumed(s), a')
  {
    hide Placed, Links, Stored, Chain, Loaded, Spare, Known, ProdOk, Logged, Roomy, Good, Holds;
    var b, g := KnowSecond(c, s, a);
    a' := a;
    if s.cons.k == Peek {
      KeepConsPc(c, s, a, Consumed(s).cons);
    } else {
      a' := KeepLook(c, s, Consumed(s), a, 1, b.(localTail := b.tail), g.(lt := g.t));
    }
  }

  lemma KnowNext(c: Config, s: State, a: Aux)
    requires c.maxBlock >= 2 && Inv(c, s, a) && s.cons.CRead? && s.cons.b < |s.blocks| && Good(s)
    ensures |s.deq| < |s.enq| && s.blocks[s.cons.b].data[s.blocks[s.cons.b].front] == s.enq[|s.deq|]
  {
    hide Placed, Links, Ends, Stored, Loaded, Spare, Known, ProdOk, Logged, Roomy, Good, Chain;
    var b, g := KnowFront(c, s, a);
    KnowChain(a.ring, a.tl, |s.deq|, |s.enq|);
    if s.cons.b == g.id && g.f < g.lt {
      assert At(b, g.f) == s.enq[g.off + g.f];
    } else {
      var b', g' := KnowSecond(c, s, a);
      assert At(b', g'.f) == s.enq[g'.off + g'.f];
    }
  }

  lemma KeepCRead(c: Config, s: State, a: Aux)
    requires c.maxBlock >= 2 && Inv(c, s, a) && s.cons.CRead? && Good(s)
    ensures Inv(c, Consumed(s), a)
  {
    hide Placed, Links, Ends, Stored, Chain, Loaded, Spare, Known, ProdOk, Roomy;
    KnowNext(c, s, a);
    var x := s.enq[|s.deq|];
    if s.cons.k == Peek {
      var peeks := s.peeks + [(|s.deq|, x)];
      assert Logged(s.enq, s.deq, peeks);
      assert Consumed(s) == s.(cons := CIdle, peeks := peeks);
    } else {
      KnowRemoval(c, s, a);
      KeepConsPc(c, s, a, CFront(x));
    }
  }

  lemma KnowRemoval(c: Config, s: State, a: Aux)
    requires c.maxBlock >= 2 && Inv(c, s, a) && s.cons.CRead? && s.cons.k == Remove
    ensures a.tl < |a.ring| && a.ring[0].f < a.ring[0].lt
  {
  }

  lemma ChainRetire(ring: seq<Cell>, tl: nat, nd: nat, ne: nat, pending: bool, g: Cell)
    requires Chain(ring, tl, nd, ne) && Loaded(ring, tl) && Spare(ring, tl, pending) &&
      g == ring[0].(f := ring[0].f + 1)
    ensures Chain(ring[0 := g], tl, nd + 1, ne) && Loaded(ring[0 := g], tl) && Spare(ring[0 := g], tl, pending)
  {
  }

  lemma KeepCFront(c: Config, s: State, a: Aux) returns (a': Aux)
    requires c.maxBlock >= 2 && Inv(c, s, a) && s.cons.CFront? && Good(s)
    ensures Inv(c, Consumed(s), a')
  {
    hide Placed, Links, Ends, Stored, Chain, Loaded, Spare, Known, ProdOk, Roomy, Holds, Good;
    var b, g := KnowFront(c, s, a);
    var g' := g.(f := g.f + 1);
    var b' := b.(front := (b.front + 1) % b.size);
    a' := a.(ring := a.ring[0 := g']);
    ModArith.ModAdd(g.f, 1, g.size);
    HoldsSame(b, b', g, g', s.enq);
    Touch(s.blocks, a.ring, a.tl, s.frontBlock, s.tailBlock, s.enq, 0, b', g');
    ChainRetire(a.ring, a.tl, |s.deq|, |s.enq|, s.prod.PPublish?, g');
    KnownByConsumer(s.blocks, a.ring, a.tl, 0, b', g');
    ProdStable(s.prod, s.blocks, a.ring, a.tl, s.enq, |s.deq|, |s.deq| + 1, 0, b', g');
    KnowPending(s.prod, s.blocks, a.ring, a.tl, s.enq, |s.deq|);
    RoomySame(c, a.ring, s.largest, s.prod, s.prod, s.blocks, 0, b', g');
  }

  function Rotate(ring: seq<Cell>): (r: seq<Cell>)
    requires |ring| > 0
    ensures |r| == |ring|
    ensures forall i | 0 <= i < |r| :: r[i] == if i + 1 < |ring| then ring[i + 1] else ring[0]
  {
    ring[1..] + [ring[0]]
  }

  lemma PlacedRotate(blocks: seq<Block>, ring: seq<Cell>)
    requires Placed(blocks, ring) && Links(blocks, ring) && |ring| > 0
    ensures Placed(blocks, Rotate(ring)) && Links(blocks, Rotate(ring))
  {
    hide CellOk;
    var ring' := Rotate(ring);
    forall i, j | 0 <= i < |ring'| && j == (if i + 1 < |ring'| then i + 1 else 0)
      ensures ring'[i].id < |blocks| && blocks[ring'[i].id].next == ring'[j].id
    {
      var k := if i + 1 < |ring| then i + 1 else 0;
      var l := if k + 1 < |ring| then k + 1 else 0;
      assert ring'[i] == ring[k] && ring'[j] == ring[l];
    }
  }

  lemma ChainRotate(ring: seq<Cell>, tl: nat, nd: nat, ne: nat, pending: bool)
    requires Chain(ring, tl, nd, ne) && Loaded(ring, tl) && Spare(ring, tl, pending) && Drained(ring, tl)
    requires pending ==> tl + 1 < |ring|
    ensures Chain(Rotate(ring), tl - 1, nd, ne) && Loaded(Rotate(ring), tl - 1) && Spare(Rotate(ring), tl - 1, pending)
  {
    var ring' := Rotate(ring);
    assert ring'[0] == ring[1] && ring'[tl - 1] == ring[tl];
    assert ring[0].off + ring[0].t == ring[1].off + ring[1].f;
    forall i, j | 0 <= i < tl - 1 && j == i + 1
      ensures ring'[i].off + ring'[i].t == ring'[j].off + ring'[j].f
    {
      assert ring'[i] == ring[i + 1] && ring'[j] == ring[j + 1];
    }
  }

  lemma StoredRotate(blocks: seq<Block>, ring: seq<Cell>, tl: nat, enq: seq<Value>)
    requires Stored(blocks, ring, tl, enq) && Known(blocks, ring, tl) && 0 < tl
    requires ring[1].id < |blocks| && FrontKnown(blocks[ring[1].id], ring[1])
    ensures Stored(blocks, Rotate(ring), tl - 1, enq) && Known(blocks, Rotate(ring), tl - 1)
  {
    hide Holds, FrontKnown, TailKnown;
    var ring' := Rotate(ring);
    forall i | 0 <= i < |ring'| && i <= tl - 1
      ensures ring'[i].id < |blocks| && Holds(blocks[ring'[i].id], ring'[i], enq)
    {
      assert ring'[i] == ring[i + 1];
    }
    assert ring'[0] == ring[1] && ring'[tl - 1] == ring[tl];
  }

  lemma ProdRotate(p: Producer, blocks: seq<Block>, ring: seq<Cell>, tl: nat, enq: seq<Value>, nd: nat)
    requires ProdOk(p, blocks, ring, tl, enq, nd) && tl > 0
    ensures ProdOk(p, blocks, Rotate(ring), tl - 1, enq, nd)
    ensures p.PPublish? ==> tl + 1 < |ring|
  {
    var ring' := Rotate(ring);
    assert ring'[tl - 1] == ring[tl] && (tl + 1 < |ring| ==> ring'[tl] == ring[tl + 1]);
  }

  lemma KeepCAdvance(c: Config, s: State, a: Aux) returns (a': Aux)
    requires c.maxBlock >= 2 && Inv(c, s, a) && s.cons.CAdvance? && Good(s)
    ensures Inv(c, Consumed(s), a')
  {
    hide Placed, Links, Stored, Chain, Loaded, Spare, Known, ProdOk, Logged, Holds, Good, FrontKnown;
    a' := Aux(Rotate(a.ring), a.tl - 1);
    PlacedRotate(s.blocks, a.ring);
    ProdRotate(s.prod, s.blocks, a.ring, a.tl, s.enq, |s.deq|);
    ChainRotate(a.ring, a.tl, |s.deq|, |s.enq|, s.prod.PPublish?);
    StoredRotate(s.blocks, a.ring, a.tl, s.enq);
    assert a'.ring[0] == a.ring[1] && a'.ring[a.tl - 1] == a.ring[a.tl];
  }

  lemma KeepAsk(c: Config, s: State, a: Aux, k: Kind)
    requires c.maxBlock >= 2 && Inv(c, s, a) && Good(s)
    ensures Inv(c, Next(c, s, Ask(k)), a)
  {
    hide Placed, Links, Ends, Stored, Chain, Loaded, Known, ProdOk, Logged, Roomy, Spare, Good, Holds;
    if s.cons == CIdle {
      var b, g := KnowFront(c, s, a);
      SameSlot(g.f, g.lt, g.size);
      KeepConsPc(c, s, a, Next(c, s, Ask(k)).cons);
    }
  }

  // ---------------------------------------------------------------- every run

  lemma KeepProduced(c: Config, s: State, a: Aux, memory: bool) returns (a': Aux)
    requires c.maxBlock >= 2 && Inv(c, s, a) && Good(s)
    ensures Inv(c, Produced(c, s, memory), a')
  {
    hide Inv, Good;
    match s.prod
    case PIdle => a' := a;
    case PFront(_, _) => a' := KeepPFront(c, s, a);
    case PWrite(_) => a' := KeepPWrite(c, s, a);
    case PTail(_) => a' := KeepPTail(c, s, a);
    case PCheck(_, _, _) => a' := KeepPCheck(c, s, a);
    case PNextFront(_) => a' := KeepPNextFront(c, s, a);
    case PNextWrite(_) => a' := KeepPNextWrite(c, s, a);
    case PNextTail(_) => a' := KeepPNextTail(c, s, a);
    case PAlloc(_) => a' := KeepPAlloc(c, s, a, memory);
    case PLink(_, _) => a' := KeepPLink(c, s, a);
    case PPublish(_, _) => a' := KeepPPublish(c, s, a);
  }

  lemma KeepConsumed(c: Config, s: State, a: Aux) returns (a': Aux)
    requires c.maxBlock >= 2 && Inv(c, s, a) && Good(s)
    ensures Inv(c, Consumed(s), a')
  {
    hide Inv, Good;
    a' := a;
    match s.cons
    case CIdle =>
    case CTail(_) => a' := KeepCTail(c, s, a);
    case CTailBlock(_, _) => KeepCTailBlock(c, s, a);
    case CTailAgain(_) => a' := KeepCTailAgain(c, s, a);
    case CNext(_) => KeepCNext(c, s, a);
    case CNextTail(_, _) => a' := KeepCNextTail(c, s, a);
    case CAdvance(_) => a' := KeepCAdvance(c, s, a);
    case CRead(_, _) => KeepCRead(c, s, a);
    case CFront(_) => a' := KeepCFront(c, s, a);
  }

  lemma {:induction false} ExecInv(c: Config, acts: seq<Act>) returns (a: Aux)
    requires Sane(c)
    ensures Inv(c, Exec(c, acts), a)
  {
    hide Inv, Produced, Consumed;
    if acts == [] {
      a := InitInv(c);
    } else {
      a := ExecInv(c, acts[..|acts| - 1]);
      var s := Exec(c, acts[..|acts| - 1]);
      match acts[|acts| - 1]
      case Enqueue(v, alloc) => KeepEnqueue(c, s, a, v, alloc);
      case Ask(k) => KeepAsk(c, s, a, k);
      case Produce(memory) => a := KeepProduced(c, s, a, memory);
      case Consume => a := KeepConsumed(c, s, a);
    }
  }

  // ---------------------------------------------------------------- what every run guarantees

  /** Values come out in the order they went in, none lost or repeated; peek shows the next one to come. */
  lemma FirstInFirstOut(c: Config, acts: seq<Act>)
    requires Sane(c)
    ensures
      var s := Exec(c, acts);
      && s.deq <= s.enq
      && forall i | 0 <= i < |s.peeks| ::
        && s.peeks[i].0 < |s.enq| && s.peeks[i].1 == s.enq[s.peeks[i].0]
        && (s.peeks[i].0 < |s.deq| ==> s.peeks[i].1 == s.deq[s.peeks[i].0])
  {
    var a := ExecInv(c, acts);
    assert Logged(Exec(c, acts).enq, Exec(c, acts).deq, Exec(c, acts).peeks);
  }

  /** A spare block the producer turns to is empty; a block the consumer turns to is not. */
  lemma AssertionsHold(c: Config, acts: seq<Act>)
    requires Sane(c)
    ensures
      var s := Exec(c, acts);
      && (s.prod.PNextFront? ==>
        var nb := s.blocks[s.blocks[s.tailBlock].next]; nb.front == nb.tail)
      && (s.cons.CNextTail? ==> s.blocks[s.cons.nb].front != s.blocks[s.cons.nb].tail)
  {
    var s := Exec(c, acts);
    var a := ExecInv(c, acts);
    hide Placed, Links, Ends, Stored, Chain, Loaded, Spare, Known, Logged, Roomy, Holds;
    if s.prod.PNextFront? { var b, g := KnowAhead(c, s, a); }
    if s.cons.CNextTail? {
      var b, g := KnowSecond(c, s, a);
      SameSlot(g.f, g.t, g.size);
    }
  }

  /** The state before step n of a schedule. */
  ghost function Before(c: Config, acts: seq<Act>, n: nat): (s: State)
    requires Sane(c) && n <= |acts|
    ensures Good(s)
  {
    Exec(c, acts[..n])
  }

  lemma StepOf(c: Config, acts: seq<Act>, n: nat)
    requires Sane(c) && n < |acts|
    ensures Before(c, acts, n + 1) == Next(c, Before(c, acts, n), acts[n])
  {
    assert acts[..n + 1][..n] == acts[..n];
  }

  lemma AtFirst(c: Config, acts: seq<Act>)
    requires Sane(c)
    ensures Before(c, acts, 0).cons == CIdle && Before(c, acts, 0).prod == PIdle && Before(c, acts, 0).enq == []
  {
  }

  // ---------- What a removal or a peek does ----------

  function KindOf(q: Consumer): Kind
    requires q != CIdle
  {
    match q
    case CTail(k) => k
    case CTailBlock(k, _) => k
    case CTailAgain(k) => k
    case CNext(k) => k
    case CNextTail(k, _) => k
    case CRead(k, _) => k
    case CAdvance(_) => Remove
    case CFront(_) => Remove
  }

  /** One step, as far as the consumer's call is concerned. */
  lemma ConsStep(c: Config, s: State, act: Act)
    requires Good(s)
    ensures var s' := Next(c, s, act);
      && (act.Ask? && s.cons == CIdle ==> s'.cons != CIdle && KindOf(s'.cons) == act.k && !s'.cons.CTailBlock?)
      && (act == Consume && s.cons != CIdle && s'.cons != CIdle ==>
        && KindOf(s'.cons) == KindOf(s.cons) && s'.deq == s.deq && s'.peeks == s.peeks
        && (s'.cons.CTailBlock? ==> s'.cons.had == |s.enq|))
      && (act != Consume ==> s'.deq == s.deq && s'.peeks == s.peeks && (!act.Ask? ==> s'.cons == s.cons))
      && (act == Consume && s.cons == CIdle ==> s' == s)
      && (act.Ask? && s.cons != CIdle ==> s' == s)
  {
    hide Produced;
    if act.Produce? { ProducedKeeps(c, s, act.memory); }
  }

  lemma ProducedKeeps(c: Config, s: State, memory: bool)
    requires Good(s)
    ensures var s' := Produced(c, s, memory); s'.cons == s.cons && s'.deq == s.deq && s'.peeks == s.peeks
  {
    hide Good, Fresh;
  }

  /** The call of kind k that began with step b is open before step n, and has not taken effect. */
  ghost predicate Asking(c: Config, acts: seq<Act>, b: nat, n: nat, k: Kind)
    requires Sane(c)
  {
    && b < n <= |acts| && acts[b] == Ask(k) && Before(c, acts, b).cons == CIdle
    && forall i | b < i <= n ::
         && Before(c, acts, i).cons != CIdle && Before(c, acts, i).deq == Before(c, acts, b).deq
         && Before(c, acts, i).peeks == Before(c, acts, b).peeks
  }

  /** What it has in its locals: the number it remembers was the tail's at step j. */
  ghost predicate Heard(c: Config, acts: seq<Act>, b: nat, n: nat, j: nat)
    requires Sane(c)
  {
    && n <= |acts| && Before(c, acts, n).cons != CIdle && Asking(c, acts, b, n, KindOf(Before(c, acts, n).cons))
    && (Before(c, acts, n).cons.CTailBlock? ==> b < j < n && Before(c, acts, n).cons.had == |Before(c, acts, j).enq|)
  }

  lemma HeardStep(c: Config, acts: seq<Act>, b: nat, n: nat, j: nat) returns (i: nat)
    requires Sane(c) && n < |acts| && Heard(c, acts, b, n, j) && Before(c, acts, n + 1).cons != CIdle
    ensures Heard(c, acts, b, n + 1, i)
  {
    hide Before, Next;
    StepOf(c, acts, n);
    ConsStep(c, Before(c, acts, n), acts[n]);
    i := if acts[n] == Consume then n else j;
  }

  lemma HeardFirst(c: Config, acts: seq<Act>, n: nat)
    requires Sane(c) && n < |acts| && acts[n].Ask? && Before(c, acts, n).cons == CIdle
    ensures Heard(c, acts, n, n + 1, 0)
  {
    hide Before, Next;
    StepOf(c, acts, n);
    ConsStep(c, Before(c, acts, n), acts[n]);
  }

  lemma {:induction false} ConsTrace(c: Config, acts: seq<Act>, n: nat) returns (b: nat, j: nat)
    requires Sane(c) && n <= |acts| && Before(c, acts, n).cons != CIdle
    ensures Heard(c, acts, b, n, j)
  {
    hide Before, Next, Heard;
    AtFirst(c, acts);
    StepOf(c, acts, n - 1);
    ConsStep(c, Before(c, acts, n - 1), acts[n - 1]);
    if Before(c, acts, n - 1).cons == CIdle {
      b, j := n - 1, 0;
      HeardFirst(c, acts, n - 1);
    } else {
      b, j := ConsTrace(c, acts, n - 1);
      j := HeardStep(c, acts, b, n - 1, j);
    }
  }

  lemma {:induction false} EnqGrows(c: Config, acts: seq<Act>, n: nat, m: nat)
    requires Sane(c) && n <= m <= |acts|
    ensures Before(c, acts, n).enq <= Before(c, acts, m).enq
  {
    hide Before;
    if n < m {
      EnqGrows(c, acts, n, m - 1);
      StepOf(c, acts, m - 1);
      hide Produced, Consumed;
      if acts[m - 1].Produce? { ProducedGrows(c, Before(c, acts, m - 1), acts[m - 1].memory); }
      if acts[m - 1].Consume? { ConsumedGrows(Before(c, acts, m - 1)); }
    }
  }

  lemma ProducedGrows(c: Config, s: State, memory: bool)
    requires Good(s)
    ensures s.enq <= Produced(c, s, memory).enq
  {
    hide Good, Fresh;
  }

  lemma ConsumedGrows(s: State)
    requires Good(s)
    ensures Consumed(s).enq == s.enq && Consumed(s).prod == s.prod
  {
  }

  /** What the last step of a call does: one more value dequeued, one more peek, or a refusal. */
  ghost predicate CallEnds(s: State, s': State)
    requires s.cons != CIdle
  {
    if s'.deq == s.deq && s'.peeks == s.peeks then s.cons.CTailBlock? && s.cons.had == |s.deq|
    else if KindOf(s.cons) == Remove then |s'.deq| == |s.deq| + 1 && s.deq <= s'.deq && s'.peeks == s.peeks
    else s'.deq == s.deq && exists x :: s'.peeks == s.peeks + [(|s.deq|, x)]
  }

  lemma ConsEnd(c: Config, s: State, a: Aux)
    requires c.maxBlock >= 2 && Good(s) && Inv(c, s, a) && s.cons != CIdle && Consumed(s).cons == CIdle
    ensures CallEnds(s, Consumed(s))
  {
    hide Links, Stored, Chain, Loaded, Spare, Known, ProdOk, Logged, Roomy, Good;
    var s' := Consumed(s);
    if s.cons.CRead? { assert |s'.peeks| == |s.peeks| + 1; }
    if s.cons.CFront? { assert |s'.deq| == |s.deq| + 1; }
  }

  /** The queue as of step n gives its next value to a call of kind k, and to no other. */
  ghost predicate Answered(k: Kind, s: State, s': State) {
    && |s.deq| < |s.enq|
    && match k
       case Remove => s'.deq == s.deq + [s.enq[|s.deq|]] && s'.peeks == s.peeks
       case Peek => s'.peeks == s.peeks + [(|s.deq|, s.enq[|s.deq|])] && s'.deq == s.deq
  }

  /**
   In every interleaving a removal or peek ends by giving the value that is next, or it is refused;
   and it is refused only if at some moment of the call everything enqueued had been dequeued.
   */
  lemma CallAnswers(c: Config, acts: seq<Act>, n: nat) returns (b: nat, j: nat, k: Kind)
    requires Sane(c) && n < |acts| && Before(c, acts, n).cons != CIdle && Before(c, acts, n + 1).cons == CIdle
    ensures Asking(c, acts, b, n, k)
    ensures var s, s' := Before(c, acts, n), Before(c, acts, n + 1);
      if s'.deq == s.deq && s'.peeks == s.peeks
      then b < j < n && |Before(c, acts, j).enq| == |Before(c, acts, j).deq|
      else Answered(k, s, s')
  {
    hide Exec, Next, Inv;
    b, j := ConsTrace(c, acts, n);
    var s, s' := Before(c, acts, n), Before(c, acts, n + 1);
    k := KindOf(s.cons);
    StepOf(c, acts, n);
    ConsStep(c, s, acts[n]);
    var a := ExecInv(c, acts[..n]);
    FirstInFirstOut(c, acts[..n + 1]);
    ConsEndNext(c, s, a, acts[n]);
    if |s'.peeks| > |s.peeks| { assert s'.peeks[|s.peeks|].0 == |s.deq|; }
  }

  lemma ConsEndNext(c: Config, s: State, a: Aux, act: Act)
    requires c.maxBlock >= 2 && Good(s) && Inv(c, s, a) && s.cons != CIdle
    requires act == Consume && Next(c, s, act).cons == CIdle
    ensures Next(c, s, act).enq == s.enq && CallEnds(s, Next(c, s, act))
  {
    hide Inv, Consumed, CallEnds;
    ConsumedGrows(s);
    ConsEnd(c, s, a);
  }

  /** A removal or peek that begins while something is queued is not refused, whatever the producer does. */
  lemma NotRefused(c: Config, acts: seq<Act>, b: nat, n: nat, k: Kind)
    requires Sane(c) && n < |acts| && Asking(c, acts, b, n, k) && Before(c, acts, n + 1).cons == CIdle
    requires |Before(c, acts, b).deq| < |Before(c, acts, b).enq|
    ensures Answered(k, Before(c, acts, n), Before(c, acts, n + 1))
  {
    hide Before;
    var b', j, k' := CallAnswers(c, acts, n);
    assert !(b' < b) && !(b < b');
    if b < j < n { EnqGrows(c, acts, b, j); }
  }

  function Distance(q: Consumer): nat {
    match q
    case CIdle => 0
    case CTail(_) => 8
    case CTailBlock(_, _) => 7
    case CTailAgain(_) => 6
    case CNext(_) => 5
    case CNextTail(_, _) => 4
    case CAdvance(_) => 3
    case CRead(_, _) => 2
    case CFront(_) => 1
  }

  /**
   Every step the consumer takes inside a call brings it nearer to the end; nothing the producer
   does sets it back.
   */
  lemma ConsumerWaitFree(c: Config, acts: seq<Act>, n: nat)
    requires Sane(c) && n < |acts| && Before(c, acts, n).cons != CIdle
    ensures var q, q' := Before(c, acts, n).cons, Before(c, acts, n + 1).cons;
      if acts[n] == Consume then Distance(q') < Distance(q) else q' == q
  {
    hide Exec;
    StepOf(c, acts, n);
    var s := Before(c, acts, n);
    ConsStep(c, s, acts[n]);
  }

  lemma {:induction false} SpanFull(c: Config, ring: seq<Cell>, tl: nat, nd: nat, ne: nat, blocks: seq<Block>, i: nat)
    requires Chain(ring, tl, nd, ne) && Loaded(ring, tl) && Placed(blocks, ring) && 1 <= i <= tl
    requires c.maxBlock >= 2 && forall j | 0 <= j < |ring| :: ring[j].size >= Base(c)
    ensures ring[i].off + ring[i].f >= nd + (i - 1) * (Base(c) - 1)
  {
    var m := Base(c) - 1;
    if i == 1 {
      ChainUp(blocks, ring, tl, nd, ne, 1);
      assert (i - 1) * m == 0;
    } else {
      SpanFull(c, ring, tl, nd, ne, blocks, i - 1);
      assert ring[i - 1].off + ring[i - 1].t == ring[i].off + ring[i].f;
      assert (i - 1) * m == (i - 2) * m + m;
    }
  }

  /** An enqueue that finds no room and no spare block read the tail block's front when the queue was full. */
  lemma CheckedFull(c: Config, s: State, a: Aux)
    requires Sane(c) && Good(s) && Inv(c, s, a) && s.prod.PCheck? && s.blocks[s.tailBlock].next == s.frontBlock
    ensures |s.enq| - s.prod.was >= c.maxSize
  {
    KnowWrap(s.blocks, a.ring, a.tl, s.frontBlock, s.tailBlock);
    CountPositive(c);
    FullRing(c, s, a);
  }

  lemma FullRing(c: Config, s: State, a: Aux)
    requires Sane(c) && Inv(c, s, a) && s.prod.PCheck? && a.tl + 1 == |a.ring|
    ensures |s.enq| - s.prod.was >= c.maxSize
  {
    hide Placed, Links, Ends, Stored, Chain, Loaded, Spare, Known, ConsOk, Logged, Holds, Count, Base;
    CountPositive(c);
    if a.tl > 0 {
      SpanFull(c, a.ring, a.tl, |s.deq|, |s.enq|, s.blocks, a.tl);
      var m := Base(c) - 1;
      Enough(a.tl, m, Count(c), c.maxSize);
      assert (a.tl - 1) * m + m == a.tl * m;
      KnowChain(a.ring, a.tl, |s.deq|, |s.enq|);
    }
  }

  lemma Enough(tl: nat, m: nat, n: nat, size: nat)
    requires tl >= 1 && tl >= n - 1 && n >= 1 && (n == 1 ==> m >= size) && (n >= 2 ==> (n - 1) * m >= size)
    ensures tl * m >= size
  {
    if n == 1 { ModArith.MulMono(1, tl, m); } else { ModArith.MulMono(n - 1, tl, m); }
  }

  // ---------- What an enqueue does ----------

  /** What the producer's step does to its call and to the values. */
  lemma ProdStep(c: Config, s: State, memory: bool)
    requires Good(s) && s.prod != PIdle
    ensures var s' := Produced(c, s, memory);
      && (s'.prod != PIdle ==> s'.enq == s.enq && s'.prod.v == s.prod.v)
      && (s'.prod == PIdle ==> s'.enq == s.enq + [s.prod.v] || s'.enq == s.enq)
  {
    hide Good, Fresh;
  }

  /** Any step. */
  lemma SendStep(c: Config, s: State, act: Act)
    requires Good(s)
    ensures var s' := Next(c, s, act);
      && (act.Enqueue? && s.prod == PIdle ==> s'.enq == s.enq && s'.prod != PIdle && s'.prod.v == act.v)
      && (!act.Enqueue? && s.prod == PIdle ==> s'.enq == s.enq && s'.prod == PIdle)
      && (s.prod != PIdle && !act.Produce? ==> s'.enq == s.enq && s'.prod == s.prod)
      && (s.prod != PIdle && act.Produce? ==> s' == Produced(c, s, act.memory))
  {
    hide Produced, Consumed;
    if act.Consume? { ConsumedGrows(s); }
    if act.Produce? && s.prod == PIdle { ProducedIdle(c, s, act.memory); }
  }

  lemma ProducedIdle(c: Config, s: State, memory: bool)
    requires Good(s) && s.prod == PIdle
    ensures Produced(c, s, memory) == s
  {
  }

  /** What a step is to the producer's calls, told from the schedule and what it shows outside. */
  function EventOf(s: State, act: Act, s': State): Ledger.Event<Value> {
    if s.prod == PIdle then if act.Enqueue? then Ledger.Called(act.v) else Ledger.Quiet
    else if s'.prod != PIdle then Ledger.Quiet
    else if |s'.enq| > |s.enq| then Ledger.Published
    else Ledger.Refused
  }

  ghost function Events(c: Config, acts: seq<Act>): (r: seq<Ledger.Event<Value>>)
    requires Sane(c)
    ensures |r| == |acts|
  {
    if acts == [] then []
    else
      var n := |acts| - 1;
      Events(c, acts[..n]) + [EventOf(Exec(c, acts[..n]), acts[n], Exec(c, acts))]
  }

  /**
   The values enqueued are those passed to the calls that were not refused, in the order of the
   calls; a call still open has its value in hand.
   */
  lemma {:induction false} ValuesSent(c: Config, acts: seq<Act>)
    requires Sane(c)
    ensures Exec(c, acts).enq == Ledger.Values(Events(c, acts))
    ensures Ledger.InHand(Events(c, acts)) == if Exec(c, acts).prod == PIdle then None else Some(Exec(c, acts).prod.v)
  {
    hide Next, Good, Produced;
    if acts != [] {
      var n := |acts| - 1;
      ValuesSent(c, acts[..n]);
      var s, s' := Exec(c, acts[..n]), Exec(c, acts);
      SendStep(c, s, acts[n]);
      if s.prod != PIdle && acts[n].Produce? { ProdStep(c, s, acts[n].memory); }
      Ledger.Then(Events(c, acts[..n]), EventOf(s, acts[n], s'));
    }
  }

  /** The call that began with step b is open before step n, and has not taken effect. */
  ghost predicate Sending(c: Config, acts: seq<Act>, b: nat, n: nat, v: Value, alloc: bool)
    requires Sane(c)
  {
    && b < n <= |acts| && acts[b] == Enqueue(v, alloc) && Before(c, acts, b).prod == PIdle
    && forall i | b < i <= n :: Before(c, acts, i).prod != PIdle && Before(c, acts, i).enq == Before(c, acts, b).enq
  }

  /** At step j, inside the call, the queue held at least maxSize values. */
  ghost predicate WasFull(c: Config, acts: seq<Act>, b: nat, j: nat, n: nat)
    requires Sane(c)
  {
    b < j < n <= |acts| && |Before(c, acts, j).enq| - |Before(c, acts, j).deq| >= c.maxSize
  }

  /** What the call has in its locals. */
  ghost predicate Noted(c: Config, acts: seq<Act>, b: nat, n: nat, v: Value, alloc: bool, j: nat)
    requires Sane(c)
  {
    && Sending(c, acts, b, n, v, alloc)
    && var p := Before(c, acts, n).prod;
    && p.v == v && (p.PFront? ==> p.alloc == alloc)
    && (p.PCheck? ==> p.alloc == alloc && b < j < n && p.was == |Before(c, acts, j).deq|)
    && (p.PAlloc? ==> alloc && WasFull(c, acts, b, j, n))
  }

  lemma NotedFirst(c: Config, acts: seq<Act>, n: nat)
    requires Sane(c) && n < |acts| && acts[n].Enqueue? && Before(c, acts, n).prod == PIdle
    ensures Noted(c, acts, n, n + 1, acts[n].v, acts[n].alloc, 0)
  {
    hide Before, Produced, Consumed;
    StepOf(c, acts, n);
  }

  /** How the locals come about. */
  lemma ProdLocals(c: Config, s: State, a: Aux, memory: bool)
    requires Sane(c) && Good(s) && Inv(c, s, a) && s.prod != PIdle
    ensures var p, p' := s.prod, Produced(c, s, memory).prod;
      && !p'.PFront? && (p'.PCheck? ==> p.PFront? && p'.alloc == p.alloc && p'.was == |s.deq|)
      && (p'.PAlloc? ==> p.PCheck? && p.alloc && |s.enq| - p.was >= c.maxSize)
      && (p' == PIdle && Produced(c, s, memory).enq == s.enq ==>
        || (p.PCheck? && !p.alloc && |s.enq| - p.was >= c.maxSize)
        || (p.PAlloc? && !memory))
  {
    hide Inv, Fresh;
    LargestTwo(c, s, a);
    if s.prod.PCheck? && s.blocks[s.tailBlock].next == s.frontBlock { CheckedFull(c, s, a); }
  }

  lemma LargestTwo(c: Config, s: State, a: Aux)
    requires Sane(c) && Inv(c, s, a)
    ensures s.largest >= 2
  {
    hide Placed, Links, Ends, Stored, Chain, Loaded, Spare, Known, ProdOk, ConsOk, Logged;
  }

  lemma NotedStep(c: Config, acts: seq<Act>, b: nat, n: nat, v: Value, alloc: bool, j: nat) returns (i: nat)
    requires Sane(c) && n < |acts| && Noted(c, acts, b, n, v, alloc, j) && Before(c, acts, n + 1).prod != PIdle
    ensures Noted(c, acts, b, n + 1, v, alloc, i)
  {
    hide Exec, Next, Produced, Inv, Good;
    StepOf(c, acts, n);
    var s := Before(c, acts, n);
    SendStep(c, s, acts[n]);
    i := j;
    if acts[n].Produce? {
      var a := ExecInv(c, acts[..n]);
      ProdStep(c, s, acts[n].memory);
      ProdLocals(c, s, a, acts[n].memory);
      if s.prod.PFront? { i := n; }
    }
  }

  lemma {:induction false} ProdTrace(c: Config, acts: seq<Act>, n: nat) returns (b: nat, v: Value, alloc: bool, j: nat)
    requires Sane(c) && n <= |acts| && Before(c, acts, n).prod != PIdle
    ensures Noted(c, acts, b, n, v, alloc, j)
  {
    hide Before, Next, Noted;
    AtFirst(c, acts);
    StepOf(c, acts, n - 1);
    SendStep(c, Before(c, acts, n - 1), acts[n - 1]);
    if Before(c, acts, n - 1).prod == PIdle {
      b, v, alloc, j := n - 1, acts[n - 1].v, acts[n - 1].alloc, 0;
      NotedFirst(c, acts, n - 1);
    } else {
      b, v, alloc, j := ProdTrace(c, acts, n - 1);
      j := NotedStep(c, acts, b, n - 1, v, alloc, j);
    }
  }

  /**
   In every interleaving an enqueue ends by adding its value, or it is refused; and it is refused
   only if at some moment of the call at least maxSize values were in the queue, and, when it may
   allocate, only if there was no memory.
   */
  lemma EnqueueAnswers(c: Config, acts: seq<Act>, n: nat) returns (b: nat, v: Value, alloc: bool, j: nat)
    requires Sane(c) && n < |acts| && Before(c, acts, n).prod != PIdle && Before(c, acts, n + 1).prod == PIdle
    ensures Sending(c, acts, b, n, v, alloc)
    ensures var s, s' := Before(c, acts, n), Before(c, acts, n + 1);
      if s'.enq == s.enq then WasFull(c, acts, b, j, n) && (alloc ==> acts[n] == Produce(false))
      else s'.enq == s.enq + [v]
  {
    hide Exec, Next, Produced, Inv, Good;
    b, v, alloc, j := ProdTrace(c, acts, n);
    StepOf(c, acts, n);
    var s := Before(c, acts, n);
    SendStep(c, s, acts[n]);
    var a := ExecInv(c, acts[..n]);
    ProdStep(c, s, acts[n].memory);
    ProdLocals(c, s, a, acts[n].memory);
  }

  lemma MakesBlock(c: Config, s: State, act: Act)
    requires Good(s) && |Next(c, s, act).blocks| > |s.blocks|
    ensures act == Produce(true) && s.prod.PAlloc?
  {
    hide Fresh;
  }

  /**
   In every interleaving a block is made only inside an enqueue that may allocate, with memory there,
   and only if at some step of that call at least maxSize values were in the queue.
   */
  lemma AllocatesWhenFull(c: Config, acts: seq<Act>, n: nat) returns (b: nat, v: Value, j: nat)
    requires Sane(c) && n < |acts| && |Before(c, acts, n + 1).blocks| > |Before(c, acts, n).blocks|
    ensures acts[n] == Produce(true) && Sending(c, acts, b, n, v, true) && WasFull(c, acts, b, j, n)
  {
    hide Exec, Next, Good;
    StepOf(c, acts, n);
    MakesBlock(c, Before(c, acts, n), acts[n]);
    var alloc;
    b, v, alloc, j := ProdTrace(c, acts, n);
  }

  function Min(x: nat, y: nat): nat { if x < y then x else y }

  /** How large blocks are made when m have been made since the constructor. */
  function SizeAfter(c: Config, m: nat): nat {
    if Base(c) >= c.maxBlock then Base(c) else Min(Base(c) * Exp2(m), c.maxBlock)
  }

  /** One power of two is another one doubled, or at least twice as large. */
  lemma {:induction false} DoubleFits(x: nat, y: nat)
    requires IsPow2(x) && IsPow2(y) && x < y
    ensures 2 * x <= y
  {
    var i: nat :| x == Exp2(i);
    var j: nat :| y == Exp2(j);
    if j <= i { Exp2Mono(j, i); } else { Exp2Mono(i + 1, j); }
  }

  lemma {:induction false} Exp2Mono(i: nat, j: nat)
    requires i <= j
    ensures Exp2(i) <= Exp2(j)
  {
    if i < j { Exp2Mono(i, j - 1); }
  }

  lemma SizeStep(c: Config, m: nat, size: nat)
    requires Sane(c) && size == SizeAfter(c, m) && IsPow2(size)
    ensures SizeAfter(c, m + 1) == if size >= c.maxBlock then size else size * 2
  {
    hide IsCeil, IsPow2;
    if Base(c) < c.maxBlock {
      var x := Base(c) * Exp2(m);
      assert Base(c) * Exp2(m + 1) == 2 * x;
      if x < c.maxBlock { DoubleFits(x, c.maxBlock); }
    }
  }

  lemma MadeSize(c: Config, s: State, act: Act)
    requires Good(s)
    ensures var s' := Next(c, s, act);
      if |s'.blocks| == |s.blocks| then s'.largest == s.largest
      else |s'.blocks| == |s.blocks| + 1 && s'.largest == if s.largest >= c.maxBlock then s.largest else s.largest * 2
  {
    hide Fresh;
  }

  /**
   Blocks made later double in size, up to the largest size asked for, and no further; in every run
   the size of the largest block is given by the number of blocks made.
   */
  lemma {:induction false} SizesDouble(c: Config, acts: seq<Act>)
    requires Sane(c)
    ensures var s := Exec(c, acts); |s.blocks| >= Count(c) && s.largest == SizeAfter(c, |s.blocks| - Count(c))
  {
    hide Next, IsPow2, IsCeil, Good;
    if acts == [] {
      assert Base(c) * Exp2(0) == Base(c);
    } else {
      var n := |acts| - 1;
      SizesDouble(c, acts[..n]);
      SizesPow2(c, acts[..n]);
      var s := Exec(c, acts[..n]);
      MadeSize(c, s, acts[n]);
      SizeStep(c, |s.blocks| - Count(c), s.largest);
    }
  }

  function ToGo(p: Producer): nat {
    match p
    case PIdle => 0
    case PFront(_, _) => 6
    case PCheck(_, _, _) => 5
    case PNextFront(_) => 4
    case PNextWrite(_) => 3
    case PNextTail(_) => 2
    case PAlloc(_) => 3
    case PLink(_, _) => 2
    case PWrite(_) => 2
    case PTail(_) => 1
    case PPublish(_, _) => 1
  }

  lemma ProdNearer(c: Config, s: State, a: Aux, memory: bool)
    requires Sane(c) && Good(s) && Inv(c, s, a) && s.prod != PIdle
    ensures ToGo(Produced(c, s, memory).prod) < ToGo(s.prod)
  {
    hide Inv, Good, Fresh;
    LargestTwo(c, s, a);
  }

  /**
   Every step the producer takes inside a call brings it nearer to the end; nothing the consumer
   does sets it back.
   */
  lemma ProducerWaitFree(c: Config, acts: seq<Act>, n: nat)
    requires Sane(c) && n < |acts| && Before(c, acts, n).prod != PIdle
    ensures var p, p' := Before(c, acts, n).prod, Before(c, acts, n + 1).prod;
      if acts[n].Produce? then ToGo(p') < ToGo(p) else p' == p
  {
    hide Exec, Next, Produced, Inv, Good, ToGo;
    StepOf(c, acts, n);
    var s := Before(c, acts, n);
    SendStep(c, s, acts[n]);
    if acts[n].Produce? {
      var a := ExecInv(c, acts[..n]);
      ProdNearer(c, s, a, acts[n].memory);
    }
  }

  /** With neither thread inside an operation, the walk over the blocks counts exactly what is queued. */
  method SizeApprox(c: Config, ghost acts: seq<Act>, s: State) returns (result: nat)
    requires Sane(c) && s == Exec(c, acts) && s.prod == PIdle && s.cons == CIdle
    ensures result == |s.enq| - |s.deq|
  {
    hide Placed, Links, Stored, Chain, Loaded, Spare, Known, ProdOk, ConsOk, Logged, Roomy, Exec, Good;
    ghost var a := ExecInv(c, acts);
    ghost var i := 0;
    result := 0;
    var block := s.frontBlock;
    var more := true;
    while more
      invariant i <= |a.ring| && more == (i < |a.ring|)
      invariant more ==> block == a.ring[i].id
      invariant result == Counted(a.ring, i)
      decreases |a.ring| - i
    {
      CountOne(s.blocks, a.ring, i);
      var b := s.blocks[block];
      result := result + (b.tail - b.front) % b.size;
      block := b.next;
      i := i + 1;
      more := block != s.frontBlock;
      LinkOne(s.blocks, a.ring, i - 1);
    }
    CountAll(s.blocks, a.ring, a.tl, |s.deq|, |s.enq|, |a.ring|);
  }

  ghost function Counted(ring: seq<Cell>, i: nat): int
    requires i <= |ring|
  {
    if i == 0 then 0 else Counted(ring, i - 1) + (ring[i - 1].t - ring[i - 1].f)
  }

  lemma CountOne(blocks: seq<Block>, ring: seq<Cell>, i: nat)
    requires Placed(blocks, ring) && i < |ring|
    ensures ring[i].id < |blocks| && blocks[ring[i].id].size > 0
    ensures (blocks[ring[i].id].tail - blocks[ring[i].id].front) % blocks[ring[i].id].size == ring[i].t - ring[i].f
  {
    ModArith.ModSub(ring[i].t, ring[i].f, ring[i].size);
    ModArith.ModSmall(ring[i].t - ring[i].f, ring[i].size);
  }

  lemma LinkOne(blocks: seq<Block>, ring: seq<Cell>, i: nat)
    requires Placed(blocks, ring) && Links(blocks, ring) && i < |ring|
    ensures ring[i].id < |blocks| && (blocks[ring[i].id].next == ring[0].id <==> i + 1 == |ring|)
    ensures i + 1 < |ring| ==> blocks[ring[i].id].next == ring[i + 1].id
  {
    hide CellOk;
    var j := if i + 1 < |ring| then i + 1 else 0;
    assert blocks[ring[i].id].next == ring[j].id;
  }

  lemma {:induction false} CountAll(blocks: seq<Block>, ring: seq<Cell>, tl: nat, nd: nat, ne: nat, i: nat)
    requires Placed(blocks, ring) && Chain(ring, tl, nd, ne) && Spare(ring, tl, false) && 0 < i <= |ring|
    ensures Counted(ring, i) == if i <= tl then ring[i].off + ring[i].f - nd else ne - nd
  {
    if i > 1 { CountAll(blocks, ring, tl, nd, ne, i - 1); }
    if i <= tl { assert ring[i - 1].off + ring[i - 1].t == ring[i].off + ring[i].f; }
  }

  lemma CircleGrows(i: nat, size: nat)
    ensures i == 0 ==> Circle(1, size) == [Fresh(size, 0)]
    ensures i > 0 ==>
      Circle(i + 1, size) == Circle(i, size)[i - 1 := Circle(i, size)[i - 1].(next := i)] + [Fresh(size, 0)]
  {
    if i > 0 {
      var more := Circle(i, size)[i - 1 := Circle(i, size)[i - 1].(next := i)] + [Fresh(size, 0)];
      forall j | 0 <= j < i + 1
        ensures Circle(i + 1, size)[j] == more[j]
      {
        assert Circle(i + 1, size)[j] == Fresh(size, if j + 1 < i + 1 then j + 1 else 0);
      }
    }
  }

  /** The constructor: blocks are made one by one, each linked behind the last and back to the first. */
  method Construct(maxSize: nat, maxBlock: nat) returns (c: Config, s: State)
    requires 1 <= maxSize < WORD / 2 && 2 <= maxBlock < WORD / 2 && IsPow2(maxBlock)
    ensures Sane(c) && c.maxSize == maxSize && c.maxBlock == maxBlock && s == Init(c)
  {
    var size := CeilToPow2(maxSize + 1);
    c := Config(maxSize, maxBlock, size);
    var blocks: seq<Block> := [];
    if size > maxBlock * 2 {
      var count := (maxSize + maxBlock * 2 - 3) / (maxBlock - 1);
      size := maxBlock;
      var i := 0;
      while i != count
        invariant 0 <= i <= count && blocks == Circle(i, size)
      {
        CircleGrows(i, size);
        if i > 0 { blocks := blocks[i - 1 := blocks[i - 1].(next := i)]; }
        blocks := blocks + [Fresh(size, 0)];
        i := i + 1;
      }
    } else {
      CircleGrows(0, size);
      blocks := [Fresh(size, 0)];
    }
    s := State(blocks, 0, 0, size, PIdle, CIdle, [], [], []);
  }
}
