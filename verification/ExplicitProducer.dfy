/**
 The explicit producer of ConcurrentQueue: one thread enqueues into a circular list of
 blocks and publishes them through a circular block index that it may overwrite or
 replace by a doubled one, while any number of consumers look up in it the elements they
 have claimed, one at a time or many at once across several blocks.

 Element numbers are exact; what the code stores in the index are their values modulo W.
 Claiming elements is one step here: DequeueProtocol shows that the code's protocol hands
 out the indices below the tail in order, each to one consumer.  `dequeue` is a bulk dequeue
 of one element.
 */
module ExplicitProducer {
  import opened Wrappers
  import opened ModArith
  import Ledger
  import PowerOfTwo

  type Block = nat
  type Cid = nat
  type Value = int

  /** `BlockIndexHeader`; the entries are kept as one sequence of bases and one of blocks. */
  datatype Header = Header(size: nat, front: int, base: seq<int>, block: seq<Block>)

  /** Where the producer is inside `enqueue(v)`. */
  datatype PPc =
    | Ready
    | TryReuse(v: Value)     // tailBlock->next->is_empty()
    | Room(v: Value)         // load headIndex, check the leeway and the index
    | Requisition(v: Value)  // get a block and link it in
    | PutBase(v: Value)      // entry.base = currentTailIndex
    | PutBlock(v: Value)     // entry.block = tailBlock
    | PutFront(v: Value)     // front.store(pr_blockIndexFront)
    | Construct(v: Value)    // new (slot) T(v)
    | Publish(v: Value)      // tailIndex.store(newTailIndex)

  /** Where a consumer is inside `dequeue_bulk` once it has claimed the elements from i up to e. */
  datatype CPc =
    | Away
    | LoadIndex(i: nat, e: nat)
    | LoadFront(i: nat, e: nat, h: nat)
    | LoadBase(i: nat, e: nat, h: nat, f: int)
    | LoadBlock(i: nat, e: nat, h: nat, k: int)                             // entries[k].block
    | Read(i: nat, e: nat, h: nat, k: int, b: Block, xs: seq<Value>)        // xs: read from block b so far
    | SetEmpty(i: nat, m: nat, e: nat, h: nat, k: int, b: Block, xs: seq<Value>) // set_many_empty; then on to m

  datatype State = State(
    enq: seq<Value>,                    // elements published so far; tailIndex is its length
    head: nat,                          // headIndex
    mem: map<(Block, nat), Value>,      // element storage
    flags: set<(Block, nat)>,           // emptyFlags that are set
    next: map<Block, Block>,            // Block::next
    tailBlock: Option<Block>,
    headers: seq<Header>,               // block indices; blockIndex points to the last
    used: nat,                          // pr_blockIndexSlotsUsed
    front: nat,                         // pr_blockIndexFront
    ppc: PPc,
    cpc: map<Cid, CPc>,
    got: seq<(nat, Value)>)             // what consumers have returned

  /** BLOCK_SIZE, the modulus of index_t, and the size of the first block index. */
  datatype Config = Config(B: nat, W: nat, size0: nat)

  predicate Sane(c: Config) { c.B > 1 && c.W > 0 && c.W % c.B == 0 && c.size0 > 0 && (c.W / c.B) % c.size0 == 0 }

  datatype Act =
    | Enqueue(v: Value)
    | Produce(seesEmpty: bool, block: Option<Block>)  // what is_empty and requisition_block answer
    | Consume(c: Cid, n: nat)                         // n: how many elements to claim, when it claims

  function Blank(size: nat): Header { Header(size, -1, seq(size, _ => 0), seq(size, _ => 0)) }

  function Init(c: Config): State {
    State([], 0, map[], {}, map[], None, [Blank(c.size0)], 0, 0, Ready, map[], [])
  }

  function PcAt(cpc: map<Cid, CPc>, t: Cid): CPc { if t in cpc then cpc[t] else Away }

  function At(s: State, t: Cid): CPc { PcAt(s.cpc, t) }

  function Last(s: State): Header
    requires s.headers != []
  {
    s.headers[|s.headers| - 1]
  }

  function SetLast(s: State, h: Header): seq<Header>
    requires s.headers != []
  {
    s.headers[|s.headers| - 1 := h]
  }

  predicate AllEmpty(flags: set<(Block, nat)>, b: Block, B: nat) { forall j | 0 <= j < B :: (b, j) in flags }

  function Reset(flags: set<(Block, nat)>, b: Block): set<(Block, nat)> { set f | f in flags && f.0 != b }

  /** new_block_index: the used entries, oldest first, in an index twice the size. */
  function Grown(h: Header, used: nat, front: nat): Header
    requires 0 < h.size == |h.base| == |h.block|
  {
    Header(2 * h.size, used - 1,
           seq(2 * h.size, j => h.base[(front - used + j) % h.size]),
           seq(2 * h.size, j => h.block[(front - used + j) % h.size]))
  }

  /** The slot a consumer reads: the block offset is divided as an unsigned number, then masked. */
  function Slot(c: Config, size: nat, f: int, i: nat, headBase: int): int
    requires Sane(c) && size > 0
  {
    var word := i % c.W;
    var blockBase := word - word % c.B;
    (f + (blockBase - headBase) % c.W / c.B) % size
  }

  /** Block::next with block b linked in between the newest and the oldest. */
  function Linked(next: map<Block, Block>, tail: Option<Block>, b: Block): map<Block, Block> {
    if tail.Some? && tail.value in next then next[b := next[tail.value]][tail.value := b] else next[b := b]
  }

  predicate Shape(s: State) {
    s.headers != [] && 0 < Last(s).size == |Last(s).base| == |Last(s).block| && s.front < Last(s).size
  }

  function Produced(c: Config, s: State, seesEmpty: bool, block: Option<Block>): State
    requires Sane(c) && Shape(s)
  {
    var T, L := |s.enq|, Last(s);
    match s.ppc
    case Ready => s
    case TryReuse(v) =>
      if seesEmpty && s.tailBlock.Some? && s.tailBlock.value in s.next && AllEmpty(s.flags, s.next[s.tailBlock.value],
        c.B) then
        var b := s.next[s.tailBlock.value];
        s.(tailBlock := Some(b), flags := Reset(s.flags, b), ppc := PutBase(v))
      else s.(ppc := Room(v))
    case Room(v) =>
      if T + c.B - s.head >= c.W / 2 then s.(ppc := Ready)
      else if s.used != L.size then s.(ppc := Requisition(v))
      else if (c.W / c.B) % (2 * L.size) != 0 || block == None then s.(ppc := Ready)  // allocation fails
      else s.(headers := s.headers + [Grown(L, s.used, s.front)], front := s.used, ppc := Requisition(v))
    case Requisition(v) =>
      if block == None || block.value in s.next then s.(ppc := Ready)
      else
        var b := block.value;
        s.(next := Linked(s.next, s.tailBlock, b), tailBlock := Some(b), flags := Reset(s.flags, b),
           used := s.used + 1, ppc := PutBase(v))
    case PutBase(v) => s.(headers := SetLast(s, L.(base := L.base[s.front := T % c.W])), ppc := PutBlock(v))
    case PutBlock(v) =>
      if s.tailBlock == None then s
      else s.(headers := SetLast(s, L.(block := L.block[s.front := s.tailBlock.value])), ppc := PutFront(v))
    case PutFront(v) =>
      s.(headers := SetLast(s, L.(front := s.front)), front := (s.front + 1) % L.size, ppc := Construct(v))
    case Construct(v) =>
      if s.tailBlock == None then s
      else s.(mem := s.mem[(s.tailBlock.value, T % c.B) := v], ppc := Publish(v))
    case Publish(v) => s.(enq := s.enq + [v], ppc := Ready)
  }

  /** Where the part of [i, e) in the block of element i ends. */
  function BlockEnd(c: Config, i: nat, e: nat): nat
    requires Sane(c)
  {
    var end := (i / c.B) * c.B + c.B;
    if e < end then e else end
  }

  /** Where a consumer is when it has read one more value. */
  function Taken(c: Config, p: CPc, x: Value): CPc
    requires Sane(c) && p.Read?
  {
    var j, xs := p.i + |p.xs|, p.xs + [x];
    if j + 1 < BlockEnd(c, p.i, p.e) then Read(p.i, p.e, p.h, p.k, p.b, xs)
    else SetEmpty(p.i, j + 1, p.e, p.h, p.k, p.b, xs)
  }

  /**
   Where it is when it has set the flag of the last element it held of a block: flags are set from
   the last to the first.
   */
  function Emptied(p: CPc, size: nat): CPc
    requires p.SetEmpty? && p.xs != [] && size > 0
  {
    var last := |p.xs| - 1;
    if last > 0 then SetEmpty(p.i, p.m, p.e, p.h, p.k, p.b, p.xs[..last])
    else if p.m < p.e then LoadBlock(p.m, p.e, p.h, (p.k + 1) % size)
    else Away
  }

  function Consumed(c: Config, s: State, t: Cid, n: nat): State
    requires Sane(c)
  {
    match At(s, t)
    case Away =>
      if 0 < n && s.head + n <= |s.enq|
      then s.(head := s.head + n, cpc := s.cpc[t := LoadIndex(s.head, s.head + n)]) else s
    case LoadIndex(i, e) => if s.headers == [] then s else s.(cpc := s.cpc[t := LoadFront(i, e, |s.headers| - 1)])
    case LoadFront(i, e, h) =>
      if h >= |s.headers| then s else s.(cpc := s.cpc[t := LoadBase(i, e, h, s.headers[h].front)])
    case LoadBase(i, e, h, f) =>
      if h >= |s.headers| || s.headers[h].size == 0 || !(0 <= f < |s.headers[h].base|) then s
      else s.(cpc := s.cpc[t := LoadBlock(i, e, h, Slot(c, s.headers[h].size, f, i, s.headers[h].base[f]))])
    case LoadBlock(i, e, h, k) =>
      if h >= |s.headers| || !(0 <= k < |s.headers[h].block|) then s
      else s.(cpc := s.cpc[t := Read(i, e, h, k, s.headers[h].block[k], [])])
    case Read(i, e, h, k, b, xs) =>
      var at := (b, (i + |xs|) % c.B);
      if at !in s.mem then s else s.(cpc := s.cpc[t := Taken(c, At(s, t), s.mem[at])])
    case SetEmpty(i, m, e, h, k, b, xs) =>
      if xs == [] || h >= |s.headers| || s.headers[h].size == 0 then s
      else
        var last := |xs| - 1;
        s.(flags := s.flags + {(b, (i + last) % c.B)}, got := s.got + [(i + last, xs[last])],
           cpc := s.cpc[t := Emptied(At(s, t), s.headers[h].size)])
  }

  function Next(c: Config, s: State, act: Act): (r: State)
    requires Sane(c) && Shape(s)
    ensures Shape(r)
  {
    match act
    case Enqueue(v) =>
      if s.ppc != Ready then s
      else s.(ppc := if |s.enq| % c.B == 0 then TryReuse(v) else Construct(v))
    case Produce(seesEmpty, block) => Produced(c, s, seesEmpty, block)
    case Consume(t, n) => Consumed(c, s, t, n)
  }

  function Exec(c: Config, acts: seq<Act>): (r: State)
    requires Sane(c)
    ensures Shape(r)
  {
    if acts == [] then Init(c) else Next(c, Exec(c, acts[..|acts| - 1]), acts[|acts| - 1])
  }

  // ---------- Block numbers ----------

  /** Element i lies in the block with number Num(i), at position Pos(i). */
  function Num(c: Config, i: nat): nat
    requires Sane(c)
  {
    i / c.B
  }

  function Pos(c: Config, i: nat): nat
    requires Sane(c)
  {
    i % c.B
  }

  lemma NumPos(c: Config, i: nat, j: nat)
    requires Sane(c)
    ensures i == Num(c, i) * c.B + Pos(c, i) && Pos(c, i) < c.B
    ensures Num(c, i) == Num(c, j) && Pos(c, i) == Pos(c, j) ==> i == j
    ensures i <= j ==> Num(c, i) <= Num(c, j)
    ensures i < j && Pos(c, j) == 0 ==> Num(c, i) < Num(c, j)
  {
    var a, b := i / c.B, j / c.B;
    assert i == a * c.B + i % c.B && j == b * c.B + j % c.B;
    if a > b { MulAtLeast(a - b, c.B); assert (a - b) * c.B == a * c.B - b * c.B; }
  }

  lemma NumSucc(c: Config, i: nat)
    requires Sane(c)
    ensures if Num(c, i + 1) == Num(c, i) then Pos(c, i + 1) == Pos(c, i) + 1
            else Num(c, i + 1) == Num(c, i) + 1 && Pos(c, i + 1) == 0
  {
    NumPos(c, i, i + 1);
    NumPos(c, i + 1, i);
    var a, b := Num(c, i), Num(c, i + 1);
    assert (b - a - 1) * c.B == b * c.B - a * c.B - c.B;
    if b > a + 1 { MulAtLeast(b - a - 1, c.B); }
  }

  /** Up to BlockEnd everything is in the block of element i; what comes then starts the next one. */
  lemma InBlock(c: Config, i: nat, e: nat, j: nat)
    requires Sane(c) && i < e
    ensures i < BlockEnd(c, i, e) <= e
    ensures i <= j < BlockEnd(c, i, e) ==> Num(c, j) == Num(c, i)
    ensures BlockEnd(c, i, e) < e ==> Num(c, BlockEnd(c, i, e)) == Num(c, i) + 1
  {
    NumPos(c, i, j);
    NumPos(c, j, i);
    var n, m := Num(c, i), BlockEnd(c, i, e);
    assert (n + 1) * c.B == n * c.B + c.B;
    if i <= j < m { DivIs(j, c.B, n); }
    if m < e { DivIs(m, c.B, n + 1); }
  }

  // ---------- Slots of the circular index ----------

  function SlotOf(off: int, size: nat, k: int): (r: int)
    requires size > 0
    ensures 0 <= r < size
  {
    (off + k) % size
  }

  /** Numbers less than a full turn apart have different slots. */
  lemma SlotsDiffer(off: int, size: nat, k: int, l: int)
    requires size > 0 && k < l < k + size
    ensures SlotOf(off, size, k) != SlotOf(off, size, l)
  {
    ModSub(off + l, off + k, size);
    ModSmall(l - k, size);
    ModSmall(0, size);
  }

  lemma SlotSucc(off: int, size: nat, k: int)
    requires size > 0
    ensures (SlotOf(off, size, k) + 1) % size == SlotOf(off, size, k + 1)
  {
    ModAdd(off + k, 1, size);
  }

  lemma BaseWord(c: Config, i: nat)
    requires Sane(c)
    ensures (i % c.W - i % c.W % c.B) % c.W == Num(c, i) * c.B % c.W
  {
    var q, m := i / c.W, c.W / c.B;
    assert c.W == m * c.B;
    assert i == q * c.W + i % c.W;
    assert q * c.W == (q * m) * c.B;
    ModPlus(i % c.W, c.B, q * m);
    assert i % c.W % c.B == i % c.B;
    NumPos(c, i, i);
    assert i % c.W - i % c.B == Num(c, i) * c.B + (-q) * c.W;
    ModPlus(Num(c, i) * c.B, c.W, -q);
  }

  lemma NegMultiple(d: nat, m: nat, b: nat)
    requires 1 <= d < m && b > 0
    ensures -(d * b) % (m * b) == (m - d) * b
  {
    var x := m * b;
    MulAtLeast(m, b);
    MulAtLeast(d, b);
    MulAtLeast(m - d, b);
    assert (m - d) * b == x - d * b;
    ModIs(-(d * b), x, -1);
  }

  /** The offset of an older block, divided as an unsigned word. */
  lemma UnsignedOffset(c: Config, n: nat, p: nat)
    requires Sane(c) && n <= p < n + c.W / c.B
    ensures (n * c.B - p * c.B) % c.W / c.B == if n == p then 0 else c.W / c.B - (p - n)
  {
    var m, d := c.W / c.B, p - n;
    assert c.W == m * c.B;
    assert n * c.B - p * c.B == -(d * c.B);
    if d == 0 {
      ModSmall(0, c.W);
    } else {
      NegMultiple(d, m, c.B);
      DivIs((m - d) * c.B, c.B, m - d);
    }
  }

  /** Masking makes the unsigned quotient as good as the signed one. */
  lemma MaskedSlot(size: nat, m: nat, off: int, n: nat, p: nat)
    requires size > 0 && m % size == 0
    ensures (SlotOf(off, size, p) + (m - (p - n))) % size == SlotOf(off, size, n)
  {
    ModAdd(off + p, m - (p - n), size);
    assert m == (m / size) * size;
    ModPlus(off + n, size, m / size);
  }

  lemma OffsetWord(c: Config, i: nat, p: nat)
    requires Sane(c)
    ensures (i % c.W - i % c.W % c.B - p * c.B % c.W) % c.W == (Num(c, i) * c.B - p * c.B) % c.W
  {
    var x, y := i % c.W - i % c.W % c.B, p * c.B;
    BaseWord(c, i);
    ModSub(x, y, c.W);
    ModSub(x, y % c.W, c.W);
    ModSmall(y % c.W, c.W);
    ModSub(Num(c, i) * c.B, y, c.W);
  }

  lemma SizeFits(m: nat, size: nat)
    requires 0 < size && 0 < m && m % size == 0
    ensures size <= m
  {
    MulAtLeast(m / size, size);
  }

  /** A consumer that knows the slot and the base of block p finds the slot of block n. */
  lemma SlotRight(c: Config, size: nat, off: int, i: nat, p: nat)
    requires Sane(c) && size > 0 && (c.W / c.B) % size == 0
    requires Num(c, i) <= p < Num(c, i) + size
    ensures Slot(c, size, SlotOf(off, size, p), i, p * c.B % c.W) == SlotOf(off, size, Num(c, i))
  {
    var n, m := Num(c, i), c.W / c.B;
    assert m > 0 by { assert c.W == m * c.B; }
    SizeFits(m, size);
    OffsetWord(c, i, p);
    UnsignedOffset(c, n, p);
    hide Num;
    if n == p { ModSmall(SlotOf(off, size, p), size); } else { MaskedSlot(size, m, off, n, p); }
  }

  // ---------- The invariant ----------

  /**
   The block that got each number, for every index its slot offset and how many numbers
   its front shows, the elements whose dequeue is complete, and the number of the front
   entry each consumer has looked up.
   */
  datatype Aux = Aux(blk: seq<Block>, off: seq<int>, vis: seq<nat>, done: set<nat>, cp: map<Cid, nat>)

  /** The ring holds the blocks of the last `used` numbers, oldest after newest. */
  ghost predicate RingInv(next: map<Block, Block>, tail: Option<Block>, blk: seq<Block>, used: nat) {
    var q, lo := |blk|, |blk| - used;
    && used <= q && (q > 0 ==> used > 0)
    && (forall k | lo <= k < q :: blk[k] in next)
    && (tail == if q == 0 then None else Some(blk[q - 1]))
    && (forall k, l | lo <= k < l < q :: blk[k] != blk[l])
    && (forall k {:trigger next[blk[k]]} | lo <= k < q :: next[blk[k]] == if k + 1 < q then blk[k + 1] else blk[lo])
  }

  ghost predicate EntryOk(c: Config, h: Header, off: int, blk: seq<Block>, k: nat)
    requires Sane(c)
  {
    && 0 < h.size == |h.base| == |h.block| && k < |blk|
    && h.base[SlotOf(off, h.size, k)] == k * c.B % c.W
    && h.block[SlotOf(off, h.size, k)] == blk[k]
  }

  /** Index h shows the numbers from n up to its front. */
  ghost predicate Shows(c: Config, h: Header, off: int, vis: nat, blk: seq<Block>, n: nat)
    requires Sane(c)
  {
    && 0 < h.size == |h.base| == |h.block| && (c.W / c.B) % h.size == 0
    && n < vis <= n + h.size && h.front == SlotOf(off, h.size, vis - 1)
    && forall k | n <= k < vis :: EntryOk(c, h, off, blk, k)
  }

  predicate Putting(p: PPc) { p.PutBase? || p.PutBlock? || p.PutFront? }

  /** The current index: every number in the ring except the one being entered. */
  ghost predicate IndexInv(c: Config, h: Header, off: int, vis: nat, blk: seq<Block>, used: nat, front: nat, p: PPc)
    requires Sane(c)
  {
    && 0 < h.size == |h.base| == |h.block| && (c.W / c.B) % h.size == 0
    && used <= h.size && used <= |blk| && (p.Requisition? ==> used < h.size)
    && |blk| == (if Putting(p) then vis + 1 else vis) && front == SlotOf(off, h.size, vis)
    && (vis > 0 ==> h.front == SlotOf(off, h.size, vis - 1))
    && (forall k | |blk| - used <= k < vis :: EntryOk(c, h, off, blk, k))
    && (p.PutBlock? || p.PutFront? ==> h.base[front] == vis * c.B % c.W)
    && (p.PutFront? ==> h.block[front] == blk[vis])
  }

  /** How far the producer is into the newest block. */
  ghost predicate TailInv(c: Config, T: nat, q: nat, p: PPc)
    requires Sane(c)
  {
    match p
    case Ready => (Num(c, T) == q && Pos(c, T) == 0) || (Num(c, T) + 1 == q && Pos(c, T) != 0)
    case TryReuse(_) => Num(c, T) == q && Pos(c, T) == 0
    case Room(_) => Num(c, T) == q && Pos(c, T) == 0
    case Requisition(_) => Num(c, T) == q && Pos(c, T) == 0
    case Construct(_) => Num(c, T) + 1 == q
    case Publish(_) => Num(c, T) + 1 == q
    case _ => Num(c, T) + 1 == q && Pos(c, T) == 0
  }

  /** Elements of blocks that left the ring are all done; in the ring the flags tell. */
  ghost predicate DoneInv(c: Config, head: nat, T: nat, flags: set<(Block, nat)>, blk: seq<Block>, used: nat,
                          done: set<nat>)
    requires Sane(c)
  {
    && used <= |blk| && head <= T && (forall i | i in done :: i < head)
    && (forall i: nat | Num(c, i) < |blk| - used :: i in done)
    && (forall i: nat | |blk| - used <= Num(c, i) < |blk| :: (blk[Num(c, i)], Pos(c, i)) in flags <==> i in done)
  }

  predicate Stored(c: Config, mem: map<(Block, nat), Value>, blk: seq<Block>, i: nat, x: Value)
    requires Sane(c)
  {
    && Num(c, i) < |blk| && (blk[Num(c, i)], Pos(c, i)) in mem
    && mem[(blk[Num(c, i)], Pos(c, i))] == x
  }

  ghost predicate MemInv(c: Config, mem: map<(Block, nat), Value>, enq: seq<Value>, p: PPc, blk: seq<Block>,
                         done: set<nat>)
    requires Sane(c)
  {
    && (forall i: nat | i < |enq| && i !in done :: Stored(c, mem, blk, i, enq[i]))
    && (p.Publish? ==> Stored(c, mem, blk, |enq|, p.v))
  }

  /** Element j is claimed by this consumer and not flagged empty yet. */
  predicate Owns(p: CPc, j: nat) {
    match p
    case Away => false
    case SetEmpty(i, m, e, _, _, _, xs) => i <= j < i + |xs| || m <= j < e
    case _ => p.i <= j < p.e
  }

  /** Elements below the head are done or owned by exactly one consumer. */
  ghost predicate ClaimInv(cpc: map<Cid, CPc>, head: nat, done: set<nat>) {
    && (forall t, u, i: nat | Owns(PcAt(cpc, t), i) && Owns(PcAt(cpc, u), i) :: t == u)
    && (forall i: nat | i < head && i !in done :: exists t :: Owns(PcAt(cpc, t), i))
  }

  /** Every finished element was returned once, with the value enqueued as that element. */
  ghost predicate ResultInv(got: seq<(nat, Value)>, enq: seq<Value>, done: set<nat>) {
    && (forall k | 0 <= k < |got| :: got[k].0 in done && got[k].0 < |enq| && got[k].1 == enq[got[k].0])
    && (forall i | i in done :: exists k :: 0 <= k < |got| && got[k].0 == i)
    && (forall k, l | 0 <= k < l < |got| :: got[k].0 != got[l].0)
  }

  /** In index h the blocks of the numbers from lo up to hi are still in place. */
  ghost predicate Walk(h: Header, off: int, vis: nat, blk: seq<Block>, lo: nat, hi: nat) {
    && 0 < h.size == |h.base| == |h.block| && hi < vis && hi < |blk|
    && forall n | lo <= n <= hi :: h.block[SlotOf(off, h.size, n)] == blk[n]
  }

  /** A consumer has looked up number p in index h, and the entries from lo up to hi are still in place. */
  ghost predicate Looked(c: Config, h: Header, off: int, vis: nat, blk: seq<Block>, lo: nat, hi: nat, p: nat, f: int)
    requires Sane(c)
  {
    && Walk(h, off, vis, blk, lo, hi) && (c.W / c.B) % h.size == 0
    && lo <= p < vis && p < lo + h.size && f == SlotOf(off, h.size, p)
  }

  /** The values read are those of elements i and following. */
  ghost predicate Values(enq: seq<Value>, i: nat, xs: seq<Value>) {
    i + |xs| <= |enq| && forall u | 0 <= u < |xs| :: xs[u] == enq[i + u]
  }

  /** What a consumer has claimed is below the head, not done, and in a block that has a number. */
  ghost predicate Holding(c: Config, p: CPc, head: nat, blk: seq<Block>, done: set<nat>)
    requires Sane(c)
  {
    && (p != Away ==> p.i < p.e <= head && Num(c, p.e - 1) < |blk| && Num(c, p.i) < |blk|)
    && (forall j: nat | Owns(p, j) :: j !in done)
  }

  predicate Looking(p: CPc) { p != Away && !p.LoadIndex? }

  /** What a consumer relies on in the index h it works with; cp is the number of the front entry it looked up. */
  ghost predicate View(c: Config, p: CPc, cp: nat, h: Header, off: int, vis: nat, blk: seq<Block>, enq: seq<Value>)
    requires Sane(c) && Looking(p) && 0 < p.e && Num(c, p.i) < |blk|
  {
    match p
    case LoadFront(i, e, _) => Shows(c, h, off, vis, blk, Num(c, i)) && Num(c, e - 1) < vis
    case LoadBase(i, e, _, f) =>
      Looked(c, h, off, vis, blk, Num(c, i), Num(c, e - 1), cp, f) && h.base[f] == cp * c.B % c.W
    case LoadBlock(i, e, _, k) =>
      Walk(h, off, vis, blk, Num(c, i), Num(c, e - 1)) && k == SlotOf(off, h.size, Num(c, i))
    case Read(i, e, _, k, b, xs) =>
      && Walk(h, off, vis, blk, Num(c, i) + 1, Num(c, e - 1)) && k == SlotOf(off, h.size, Num(c, i))
      && b == blk[Num(c, i)] && Values(enq, i, xs) && i + |xs| < BlockEnd(c, i, e)
    case SetEmpty(i, m, e, _, k, b, xs) =>
      && Walk(h, off, vis, blk, Num(c, i) + 1, Num(c, e - 1)) && k == SlotOf(off, h.size, Num(c, i))
      && b == blk[Num(c, i)] && Values(enq, i, xs) && xs != [] && i + |xs| <= m == BlockEnd(c, i, e)
  }

  function NumberAt(cp: map<Cid, nat>, t: Cid): nat { if t in cp then cp[t] else 0 }

  ghost predicate ConsumerOk(c: Config, p: CPc, t: Cid, head: nat, enq: seq<Value>, headers: seq<Header>, a: Aux)
    requires Sane(c)
  {
    && Holding(c, p, head, a.blk, a.done)
    && (Looking(p) ==>
      && p.h < |headers| == |a.off| == |a.vis|
      && View(c, p, NumberAt(a.cp, t), headers[p.h], a.off[p.h], a.vis[p.h], a.blk, enq))
  }

  ghost predicate Consumers(c: Config, s: State, a: Aux)
    requires Sane(c)
  {
    forall t :: ConsumerOk(c, PcAt(s.cpc, t), t, s.head, s.enq, s.headers, a)
  }

  ghost predicate Inv(c: Config, s: State, a: Aux)
    requires Sane(c)
  {
    && Shape(s) && |a.off| == |a.vis| == |s.headers|
    && RingInv(s.next, s.tailBlock, a.blk, s.used)
    && IndexInv(c, Last(s), a.off[|a.off| - 1], a.vis[|a.vis| - 1], a.blk, s.used, s.front, s.ppc)
    && TailInv(c, |s.enq|, |a.blk|, s.ppc)
    && DoneInv(c, s.head, |s.enq|, s.flags, a.blk, s.used, a.done)
    && MemInv(c, s.mem, s.enq, s.ppc, a.blk, a.done)
    && ClaimInv(s.cpc, s.head, a.done) && ResultInv(s.got, s.enq, a.done)
    && Consumers(c, s, a)
  }

  // ---------- The producer's steps ----------

  /** The oldest block becomes the newest. */
  lemma RingRotates(next: map<Block, Block>, blk: seq<Block>, used: nat, b: Block)
    requires blk != [] && RingInv(next, Some(blk[|blk| - 1]), blk, used)
    requires b == next[blk[|blk| - 1]]
    ensures 0 < used <= |blk| && b == blk[|blk| - used] && RingInv(next, Some(b), blk + [b], used)
  {
    var q, lo, blk' := |blk|, |blk| - used, blk + [b];
    assert next[blk[q - 1]] == blk[lo];
    forall k | lo + 1 <= k < q + 1 ensures next[blk'[k]] == if k + 1 < q + 1 then blk'[k + 1] else blk'[lo + 1] {
      if k == q { assert next[blk[lo]] == if lo + 1 < q then blk[lo + 1] else blk[lo]; }
      else { assert next[blk[k]] == if k + 1 < q then blk[k + 1] else blk[lo]; }
    }
  }

  /** What the ring says about the block with number k. */
  lemma RingAt(next: map<Block, Block>, tail: Option<Block>, blk: seq<Block>, used: nat, k: nat)
    requires RingInv(next, tail, blk, used) && |blk| - used <= k < |blk|
    ensures used <= |blk| && blk[k] in next && tail == Some(blk[|blk| - 1])
    ensures next[blk[k]] == if k + 1 < |blk| then blk[k + 1] else blk[|blk| - used]
    ensures k < |blk| - 1 ==> blk[k] != blk[|blk| - 1]
  {
  }

  lemma LinkedAt(next: map<Block, Block>, tail: Option<Block>, blk: seq<Block>, used: nat, b: Block, k: nat)
    requires RingInv(next, tail, blk, used) && b !in next && used <= |blk| && |blk| - used <= k <= |blk|
    ensures var next', blk', q := Linked(next, tail, b), blk + [b], |blk|;
      blk'[k] in next' && next'[blk'[k]] == if k < q then blk'[k + 1] else blk'[q - used]
  {
    RingEnd(next, tail, blk, used);
    hide RingInv;
    if |blk| > 0 { RingAt(next, tail, blk, used, |blk| - 1); }
    if k < |blk| { RingAt(next, tail, blk, used, k); }
  }

  lemma RingEnd(next: map<Block, Block>, tail: Option<Block>, blk: seq<Block>, used: nat)
    requires RingInv(next, tail, blk, used)
    ensures used <= |blk| && (|blk| > 0 ==> used > 0) && (|blk| == 0 ==> tail == None)
  {
  }

  lemma LinkedDiffer(next: map<Block, Block>, tail: Option<Block>, blk: seq<Block>, used: nat, b: Block)
    requires RingInv(next, tail, blk, used) && b !in next
    ensures forall k, l | |blk| - used <= k < l < |blk| + 1 :: (blk + [b])[k] != (blk + [b])[l]
  {
  }

  /** A fresh block is linked in between the newest and the oldest. */
  lemma RingInserts(next: map<Block, Block>, tail: Option<Block>, blk: seq<Block>, used: nat, b: Block)
    requires RingInv(next, tail, blk, used) && b !in next
    ensures RingInv(Linked(next, tail, b), Some(b), blk + [b], used + 1)
  {
    RingEnd(next, tail, blk, used);
    var next', blk', q := Linked(next, tail, b), blk + [b], |blk|;
    LinkedDiffer(next, tail, blk, used, b);
    forall k | q - used <= k <= q
      ensures blk'[k] in next' && next'[blk'[k]] == if k < q then blk'[k + 1] else blk'[q - used]
    {
      LinkedAt(next, tail, blk, used, b, k);
    }
    hide Linked;
  }

  /** Both ways of getting a new newest block, as far as the done elements are concerned. */
  lemma DoneExtends(c: Config, head: nat, T: nat, flags: set<(Block, nat)>, blk: seq<Block>, used: nat, used': nat,
                    done: set<nat>, b: Block)
    requires Sane(c) && DoneInv(c, head, T, flags, blk, used, done)
    requires Num(c, T) == |blk| && Pos(c, T) == 0
    requires (used' == used > 0 && b == blk[|blk| - used] && AllEmpty(flags, b, c.B)) || used' == used + 1
    requires forall k | |blk| + 1 - used' <= k < |blk| :: blk[k] != b
    ensures DoneInv(c, head, T, Reset(flags, b), blk + [b], used', done)
  {
    var blk' := blk + [b];
    hide Num, Pos;
    forall i: nat | Num(c, i) < |blk'| - used' ensures i in done {
      NumPos(c, i, i);
      if Num(c, i) == |blk| - used { assert (blk[Num(c, i)], Pos(c, i)) in flags; }
    }
    forall i: nat | |blk'| - used' <= Num(c, i) < |blk'|
      ensures (blk'[Num(c, i)], Pos(c, i)) in Reset(flags, b) <==> i in done
    {
      if Num(c, i) == |blk| { NumPos(c, i, T); } else { assert blk'[Num(c, i)] == blk[Num(c, i)] != b; }
    }
  }

  /** What consumers rely on survives a longer list of blocks and new indices. */
  lemma ConsumersExtend(c: Config, s: State, s': State, a: Aux, a': Aux)
    requires Sane(c) && Consumers(c, s, a) && s'.cpc == s.cpc && s'.head == s.head && s'.enq == s.enq
    requires |a.off| == |a.vis| == |s.headers| <= |s'.headers| == |a'.off| == |a'.vis|
    requires s'.headers[..|s.headers|] == s.headers && a'.off[..|a.off|] == a.off && a'.vis[..|a.vis|] == a.vis
    requires |a.blk| <= |a'.blk| && a'.blk[..|a.blk|] == a.blk && a'.done == a.done && a'.cp == a.cp
    ensures Consumers(c, s', a')
  {
    hide Num, View, Owns;
    forall t ensures ConsumerOk(c, PcAt(s'.cpc, t), t, s'.head, s'.enq, s'.headers, a') {
      var p := PcAt(s.cpc, t);
      assert ConsumerOk(c, p, t, s.head, s.enq, s.headers, a);
      if Looking(p) {
        assert s'.headers[p.h] == s.headers[p.h] && a'.off[p.h] == a.off[p.h] && a'.vis[p.h] == a.vis[p.h];
        ViewExtends(c, p, NumberAt(a.cp, t), s.headers[p.h], a.off[p.h], a.vis[p.h], a.blk, a'.blk, s.enq);
      }
    }
  }

  lemma ViewExtends(c: Config, p: CPc, cp: nat, h: Header, off: int, vis: nat, blk: seq<Block>, blk': seq<Block>,
                    enq: seq<Value>)
    requires Sane(c) && Looking(p) && 0 < p.e && Num(c, p.i) < |blk| && View(c, p, cp, h, off, vis, blk, enq)
    requires |blk| <= |blk'| && blk'[..|blk|] == blk
    ensures View(c, p, cp, h, off, vis, blk', enq)
  {
    hide Num, SlotOf, Shows, Walk, Values, BlockEnd;
    var lo := if p.Read? || p.SetEmpty? then Num(c, p.i) + 1 else Num(c, p.i);
    assert blk'[Num(c, p.i)] == blk'[..|blk|][Num(c, p.i)];
    if p.LoadFront? {
      ShowsExtends(c, h, off, vis, blk, blk', lo);
    } else {
      WalkExtends(h, off, vis, blk, blk', lo, Num(c, p.e - 1));
    }
  }

  lemma WalkExtends(h: Header, off: int, vis: nat, blk: seq<Block>, blk': seq<Block>, lo: nat, hi: nat)
    requires Walk(h, off, vis, blk, lo, hi) && |blk| <= |blk'| && blk'[..|blk|] == blk
    ensures Walk(h, off, vis, blk', lo, hi)
  {
    hide SlotOf;
    forall n | lo <= n <= hi ensures h.block[SlotOf(off, h.size, n)] == blk'[n] { assert blk'[n] == blk'[..|blk|][n]; }
  }

  lemma ShowsExtends(c: Config, h: Header, off: int, vis: nat, blk: seq<Block>, blk': seq<Block>, n: nat)
    requires Sane(c) && Shows(c, h, off, vis, blk, n) && |blk| <= |blk'| && blk'[..|blk|] == blk
    ensures Shows(c, h, off, vis, blk', n)
  {
    hide SlotOf;
    forall k | n <= k < vis ensures EntryOk(c, h, off, blk', k) {
      assert EntryOk(c, h, off, blk, k);
      assert blk'[k] == blk'[..|blk|][k];
    }
  }

  lemma MemExtends(c: Config, mem: map<(Block, nat), Value>, enq: seq<Value>, p: PPc, p': PPc, blk: seq<Block>,
                   b: Block, done: set<nat>)
    requires Sane(c) && MemInv(c, mem, enq, p, blk, done) && !p'.Publish?
    ensures MemInv(c, mem, enq, p', blk + [b], done)
  {
    hide Num, Pos;
    forall i: nat | i < |enq| && i !in done ensures Stored(c, mem, blk + [b], i, enq[i]) {
      assert Stored(c, mem, blk, i, enq[i]);
    }
  }

  lemma IndexExtends(c: Config, h: Header, off: int, vis: nat, blk: seq<Block>, used: nat, used': nat, front: nat,
                     p: PPc, p': PPc, b: Block)
    requires Sane(c) && IndexInv(c, h, off, vis, blk, used, front, p) && !Putting(p) && p'.PutBase?
    requires used <= used' <= used + 1 && used' <= h.size
    ensures IndexInv(c, h, off, vis, blk + [b], used', front, p')
  {
    hide SlotOf;
    forall k | |blk| + 1 - used' <= k < vis
      ensures EntryOk(c, h, off, blk + [b], k) { assert EntryOk(c, h, off, blk, k); }
  }

  lemma NewestDiffers(next: map<Block, Block>, blk: seq<Block>, used: nat, b: Block)
    requires RingInv(next, Some(b), blk + [b], used)
    ensures forall k | |blk| + 1 - used <= k < |blk| :: blk[k] != b
  {
    forall k | |blk| + 1 - used <= k < |blk| ensures blk[k] != b { assert (blk + [b])[k] != (blk + [b])[|blk|]; }
  }

  /** The producer takes a new newest block, by reuse or by insertion. */
  lemma KeepNewBlock(c: Config, s: State, s': State, a: Aux, b: Block, used': nat) returns (a': Aux)
    requires Sane(c) && Inv(c, s, a) && !Putting(s.ppc)
    requires s' == s.(next := s'.next, tailBlock := Some(b), flags := Reset(s.flags, b), used := used', ppc := s'.ppc)
    requires s'.ppc.PutBase? && Num(c, |s.enq|) == |a.blk| && Pos(c, |s.enq|) == 0
    requires RingInv(s'.next, Some(b), a.blk + [b], used') && used' <= Last(s).size
    requires (used' == s.used > 0 && b == a.blk[|a.blk| - s.used] && AllEmpty(s.flags, b, c.B)) || used' == s.used + 1
    ensures Inv(c, s', a')
  {
    hide Num, Pos, RingInv, DoneInv, MemInv, IndexInv, Consumers, ClaimInv, ResultInv;
    a' := a.(blk := a.blk + [b]);
    var last := |a.off| - 1;
    NewestDiffers(s'.next, a.blk, used', b);
    DoneExtends(c, s.head, |s.enq|, s.flags, a.blk, s.used, used', a.done, b);
    MemExtends(c, s.mem, s.enq, s.ppc, s'.ppc, a.blk, b, a.done);
    IndexExtends(c, Last(s), a.off[last], a.vis[last], a.blk, s.used, used', s.front, s.ppc, s'.ppc, b);
    ConsumersExtend(c, s, s', a, a');
  }

  lemma MemQuiet(c: Config, mem: map<(Block, nat), Value>, enq: seq<Value>, p: PPc, p': PPc, blk: seq<Block>,
                 done: set<nat>)
    requires Sane(c) && MemInv(c, mem, enq, p, blk, done) && !p'.Publish?
    ensures MemInv(c, mem, enq, p', blk, done)
  {}

  /** new_block_index keeps every entry that is in use, under a new slot offset. */
  lemma GrownShows(c: Config, h: Header, off: int, blk: seq<Block>, used: nat, front: nat, p: PPc, p': PPc)
    requires Sane(c) && IndexInv(c, h, off, |blk|, blk, used, front, p) && used == h.size
    requires (c.W / c.B) % (2 * h.size) == 0 && !Putting(p) && !Putting(p')
    ensures IndexInv(c, Grown(h, used, front), used - |blk|, |blk|, blk, used, used, p')
  {
    var g, lo, q: int := Grown(h, used, front), |blk| - used, |blk|;
    var off' := used - q;
    ModSmall(used, g.size);
    ModSmall(used - 1, g.size);
    forall k | lo <= k < q ensures EntryOk(c, g, off', blk, k) {
      assert EntryOk(c, h, off, blk, k);
      var j := k - lo;
      ModSmall(j, g.size);
      ModAdd(off + q, j - used, h.size);
      assert g.base[j] == h.base[(front - used + j) % h.size];
    }
  }

  lemma KeepGrow(c: Config, s: State, s': State, a: Aux) returns (a': Aux)
    requires Sane(c) && Inv(c, s, a) && s.ppc.Room? && s.used == Last(s).size && (c.W / c.B) % (2 * Last(s).size) == 0
    requires s' ==
      s.(headers := s.headers + [Grown(Last(s), s.used, s.front)], front := s.used, ppc := Requisition(s.ppc.v))
    ensures Inv(c, s', a')
  {
    assert a.vis[|a.off| - 1] == |a.blk|;
    hide Num, Pos, RingInv, DoneInv, MemInv, IndexInv, Consumers, ClaimInv, ResultInv;
    var last := |a.off| - 1;
    a' := a.(off := a.off + [s.used - |a.blk|], vis := a.vis + [|a.blk|]);
    GrownShows(c, Last(s), a.off[last], a.blk, s.used, s.front, s.ppc, s'.ppc);
    ConsumersExtend(c, s, s', a, a');
    MemQuiet(c, s.mem, s.enq, s.ppc, s'.ppc, a.blk, a.done);
  }

  /** The producer moves without touching anything that is shared. */
  lemma KeepProducerPc(c: Config, s: State, s': State, a: Aux)
    requires Sane(c) && Inv(c, s, a) && s' == s.(ppc := s'.ppc)
    requires TailInv(c, |s.enq|, |a.blk|, s'.ppc) && !Putting(s.ppc) && !Putting(s'.ppc) && !s'.ppc.Publish?
    requires s'.ppc.Requisition? ==> s.used != Last(s).size
    ensures Inv(c, s', a)
  {
    hide Num, Pos, Stored, EntryOk, SlotOf, ConsumerOk;
  }

  /** An element that is not done lies in a block of the ring that its index shows. */
  lemma InRing(c: Config, s: State, a: Aux, i: nat)
    requires Sane(c) && Inv(c, s, a) && i < |s.enq| && i !in a.done
    ensures |a.blk| - s.used <= Num(c, i) < a.vis[|a.vis| - 1] <= |a.blk|
  {
    hide Num, Pos, Stored, EntryOk, SlotOf, ConsumerOk, RingInv, MemInv;
    NumPos(c, i, |s.enq|);
  }

  /** h' is h except for one slot. */
  predicate SameBut(h: Header, h': Header, f: int) {
    && h'.size == h.size && h'.front == h.front && |h'.base| == |h.base| && |h'.block| == |h.block|
    && (forall k | 0 <= k < |h.base| && k != f :: h'.base[k] == h.base[k])
    && (forall k | 0 <= k < |h.block| && k != f :: h'.block[k] == h.block[k])
  }

  /** Writing the entry of number vis leaves the entries of the last size - 1 numbers alone. */
  lemma EntryStays(c: Config, h: Header, h': Header, off: int, vis: nat, blk: seq<Block>, k: nat)
    requires Sane(c) && EntryOk(c, h, off, blk, k) && k < vis < k + h.size && SameBut(h, h', SlotOf(off, h.size, vis))
    ensures EntryOk(c, h', off, blk, k)
  {
    SlotsDiffer(off, h.size, k, vis);
  }

  lemma PutIndex(c: Config, h: Header, h': Header, off: int, vis: nat, blk: seq<Block>, used: nat, front: nat, p: PPc,
                 p': PPc)
    requires Sane(c) && IndexInv(c, h, off, vis, blk, used, front, p) && SameBut(h, h', front) && Putting(p)
    requires p'.PutBlock? || p'.PutFront?
    requires h'.base[front] == vis * c.B % c.W && (p'.PutFront? ==> h'.block[front] == blk[vis])
    ensures IndexInv(c, h', off, vis, blk, used, front, p')
  {
    hide SlotOf, EntryOk;
    forall k | |blk| - used <= k < vis ensures EntryOk(c, h', off, blk, k) {
      assert EntryOk(c, h, off, blk, k);
      EntryStays(c, h, h', off, vis, blk, k);
    }
  }

  lemma PutShows(c: Config, h: Header, h': Header, off: int, vis: nat, blk: seq<Block>, n: nat)
    requires Sane(c) && Shows(c, h, off, vis, blk, n) && SameBut(h, h', SlotOf(off, h.size, vis)) && vis < n + h.size
    ensures Shows(c, h', off, vis, blk, n)
  {
    hide SlotOf, EntryOk;
    forall k | n <= k < vis ensures EntryOk(c, h', off, blk, k) {
      assert EntryOk(c, h, off, blk, k);
      EntryStays(c, h, h', off, vis, blk, k);
    }
  }

  lemma PutWalk(h: Header, h': Header, off: int, vis: nat, blk: seq<Block>, lo: nat, hi: nat)
    requires Walk(h, off, vis, blk, lo, hi) && SameBut(h, h', SlotOf(off, h.size, vis)) && vis < lo + h.size
    ensures Walk(h', off, vis, blk, lo, hi)
    ensures forall n | lo <= n <= hi :: SlotOf(off, h.size, n) != SlotOf(off, h.size, vis)
  {
    forall n | lo <= n <= hi
      ensures SlotOf(off, h.size, n) != SlotOf(off, h.size, vis)
    {
      SlotsDiffer(off, h.size, n, vis);
    }
    hide SlotOf;
  }

  lemma PutLooked(c: Config, h: Header, h': Header, off: int, vis: nat, blk: seq<Block>, lo: nat, hi: nat, p: nat,
                  f: int)
    requires Sane(c) && Looked(c, h, off, vis, blk, lo, hi, p, f) && SameBut(h, h', SlotOf(off, h.size, vis)) &&
      vis < lo + h.size
    ensures Looked(c, h', off, vis, blk, lo, hi, p, f) && h'.base[f] == h.base[f] && f != SlotOf(off, h.size, vis)
  {
    PutWalk(h, h', off, vis, blk, lo, hi);
    SlotsDiffer(off, h.size, p, vis);
    hide SlotOf;
  }

  /** What the invariant says about one consumer while an entry is being written. */
  lemma KnowPut(c: Config, s: State, a: Aux, t: Cid)
    requires Sane(c) && Inv(c, s, a) && Putting(s.ppc)
    ensures |a.off| == |a.vis| == |s.headers| > 0 && 0 < Last(s).size == |Last(s).base| == |Last(s).block|
    ensures ConsumerOk(c, PcAt(s.cpc, t), t, s.head, s.enq, s.headers, a)
    ensures var m := |s.headers| - 1;
      && s.front == SlotOf(a.off[m], Last(s).size, a.vis[m]) && |a.blk| == a.vis[m] + 1
      && (s.ppc.PutFront? ==>
        Last(s).base[s.front] == a.vis[m] * c.B % c.W && Last(s).block[s.front] == a.blk[a.vis[m]])
      && (PcAt(s.cpc, t) != Away ==> a.vis[m] < Num(c, PcAt(s.cpc, t).i) + Last(s).size)
  {
    hide Num, Pos, SlotOf, EntryOk, Stored, View, RingInv, DoneInv, ClaimInv, MemInv, ResultInv, TailInv;
    var p := PcAt(s.cpc, t);
    assert ConsumerOk(c, p, t, s.head, s.enq, s.headers, a);
    if p != Away {
      FirstOwned(c, s, a, t);
      InRing(c, s, a, p.i);
    }
  }

  /** A consumer's first element is not done. */
  lemma FirstOwned(c: Config, s: State, a: Aux, t: Cid)
    requires Sane(c) && Inv(c, s, a) && PcAt(s.cpc, t) != Away
    ensures var p := PcAt(s.cpc, t); p.i < p.e <= s.head <= |s.enq| && Owns(p, p.i) && p.i !in a.done
  {
    hide Num, Pos, SlotOf, RingInv, IndexInv, MemInv, ClaimInv, ResultInv, Shows, Looked, Walk, Values, BlockEnd;
    assert ConsumerOk(c, PcAt(s.cpc, t), t, s.head, s.enq, s.headers, a);
  }

  lemma PutView(c: Config, p: CPc, cp: nat, h: Header, h': Header, off: int, vis: nat, blk: seq<Block>, enq: seq<Value>)
    requires Sane(c) && Looking(p) && 0 < p.e && Num(c, p.i) < |blk| && View(c, p, cp, h, off, vis, blk, enq)
    requires h.size > 0 && SameBut(h, h', SlotOf(off, h.size, vis)) && vis < Num(c, p.i) + h.size
    ensures View(c, p, cp, h', off, vis, blk, enq)
  {
    hide Num, SlotOf, Shows, Looked, Walk, Values, BlockEnd;
    if p.LoadFront? {
      PutShows(c, h, h', off, vis, blk, Num(c, p.i));
    } else if p.LoadBase? {
      PutLooked(c, h, h', off, vis, blk, Num(c, p.i), Num(c, p.e - 1), cp, p.f);
    } else {
      PutWalk(h, h', off, vis, blk, if p.LoadBlock? then Num(c, p.i) else Num(c, p.i) + 1, Num(c, p.e - 1));
    }
  }

  /** No consumer still needs the slot that the producer is writing. */
  lemma PutConsumer(c: Config, s: State, h': Header, a: Aux, t: Cid)
    requires Sane(c) && Inv(c, s, a) && Putting(s.ppc) && SameBut(Last(s), h', s.front)
    ensures ConsumerOk(c, PcAt(s.cpc, t), t, s.head, s.enq, SetLast(s, h'), a)
  {
    hide Inv, Num, View, SlotOf, Owns, SameBut;
    var p, m := PcAt(s.cpc, t), |s.headers| - 1;
    KnowPut(c, s, a, t);
    if Looking(p) && p.h == m {
      PutView(c, p, NumberAt(a.cp, t), Last(s), h', a.off[m], a.vis[m], a.blk, s.enq);
    }
  }

  lemma KeepPut(c: Config, s: State, s': State, a: Aux, h': Header)
    requires Sane(c) && Inv(c, s, a) && Putting(s.ppc) && SameBut(Last(s), h', s.front)
    requires s' == s.(headers := SetLast(s, h'), ppc := s'.ppc) && (s'.ppc.PutBlock? || s'.ppc.PutFront?)
    requires h'.base[s.front] == a.vis[|a.vis| - 1] * c.B % c.W
    requires s'.ppc.PutFront? ==> h'.block[s.front] == a.blk[|a.blk| - 1]
    ensures Inv(c, s', a)
  {
    var m := |a.off| - 1;
    assert |a.blk| == a.vis[m] + 1;
    forall t ensures ConsumerOk(c, PcAt(s'.cpc, t), t, s'.head, s'.enq, s'.headers, a) { PutConsumer(c, s, h', a, t); }
    hide Num, Pos, RingInv, DoneInv, MemInv, IndexInv, ConsumerOk, ClaimInv, ResultInv;
    PutIndex(c, Last(s), h', a.off[m], a.vis[m], a.blk, s.used, s.front, s.ppc, s'.ppc);
    MemQuiet(c, s.mem, s.enq, s.ppc, s'.ppc, a.blk, a.done);
  }

  lemma FrontIndex(c: Config, h: Header, off: int, vis: nat, blk: seq<Block>, used: nat, front: nat, p: PPc, p': PPc)
    requires Sane(c) && IndexInv(c, h, off, vis, blk, used, front, p) && p.PutFront? && p'.Construct?
    ensures IndexInv(c, h.(front := front), off, vis + 1, blk, used, (front + 1) % h.size, p')
  {
    SlotSucc(off, h.size, vis);
    hide SlotOf;
    var h' := h.(front := front);
    forall k | |blk| - used <= k < vis + 1 ensures EntryOk(c, h', off, blk, k) {
      if k < vis { assert EntryOk(c, h, off, blk, k); }
    }
  }

  lemma FrontShows(c: Config, h: Header, off: int, vis: nat, blk: seq<Block>, n: nat, front: nat)
    requires Sane(c) && Shows(c, h, off, vis, blk, n) && vis < n + h.size && front == SlotOf(off, h.size, vis)
    requires vis < |blk| && h.base[front] == vis * c.B % c.W && h.block[front] == blk[vis]
    ensures Shows(c, h.(front := front), off, vis + 1, blk, n)
  {
    hide SlotOf;
    var h' := h.(front := front);
    forall k | n <= k < vis + 1 ensures EntryOk(c, h', off, blk, k) {
      if k < vis { assert EntryOk(c, h, off, blk, k); }
    }
  }

  lemma FrontWalk(h: Header, off: int, vis: nat, blk: seq<Block>, lo: nat, hi: nat, front: nat)
    requires Walk(h, off, vis, blk, lo, hi)
    ensures Walk(h.(front := front), off, vis + 1, blk, lo, hi)
  {
    hide SlotOf;
  }

  lemma FrontView(c: Config, p: CPc, cp: nat, h: Header, off: int, vis: nat, blk: seq<Block>, enq: seq<Value>,
                  front: nat)
    requires Sane(c) && Looking(p) && 0 < p.e && Num(c, p.i) < |blk| && View(c, p, cp, h, off, vis, blk, enq)
    requires 0 < h.size == |h.base| == |h.block| && front == SlotOf(off, h.size, vis) && vis < Num(c, p.i) + h.size &&
      vis < |blk|
    requires h.base[front] == vis * c.B % c.W && h.block[front] == blk[vis]
    ensures View(c, p, cp, h.(front := front), off, vis + 1, blk, enq)
  {
    hide Num, SlotOf, Shows, Walk, Values, BlockEnd;
    var lo := if p.Read? || p.SetEmpty? then Num(c, p.i) + 1 else Num(c, p.i);
    if p.LoadFront? {
      FrontShows(c, h, off, vis, blk, lo, front);
    } else {
      FrontWalk(h, off, vis, blk, lo, Num(c, p.e - 1), front);
    }
  }

  lemma FrontConsumer(c: Config, s: State, h': Header, a: Aux, a': Aux, t: Cid)
    requires Sane(c) && Inv(c, s, a) && s.ppc.PutFront? && h' == Last(s).(front := s.front)
    requires a' == a.(vis := a.vis[|a.vis| - 1 := a.vis[|a.vis| - 1] + 1])
    ensures ConsumerOk(c, PcAt(s.cpc, t), t, s.head, s.enq, SetLast(s, h'), a')
  {
    hide Inv, Num, View, SlotOf, Owns;
    var p, m := PcAt(s.cpc, t), |s.headers| - 1;
    KnowPut(c, s, a, t);
    if Looking(p) && p.h == m {
      FrontView(c, p, NumberAt(a.cp, t), Last(s), a.off[m], a.vis[m], a.blk, s.enq, s.front);
    }
  }

  lemma KeepPutFront(c: Config, s: State, s': State, a: Aux) returns (a': Aux)
    requires Sane(c) && Inv(c, s, a) && s.ppc.PutFront?
    requires s' ==
      s.(headers := SetLast(s, Last(s).(front := s.front)), front := (s.front + 1) % Last(s).size,
        ppc := Construct(s.ppc.v))
    ensures Inv(c, s', a')
  {
    var m := |a.off| - 1;
    a' := a.(vis := a.vis[m := a.vis[m] + 1]);
    forall t ensures ConsumerOk(c, PcAt(s'.cpc, t), t, s'.head, s'.enq, s'.headers, a') {
      FrontConsumer(c, s, Last(s').(front := s.front), a, a', t);
    }
    hide Num, Pos, RingInv, DoneInv, MemInv, IndexInv, ConsumerOk, ClaimInv, ResultInv;
    FrontIndex(c, Last(s), a.off[m], a.vis[m], a.blk, s.used, s.front, s.ppc, s'.ppc);
    MemQuiet(c, s.mem, s.enq, s.ppc, s'.ppc, a.blk, a.done);
  }

  lemma ConstructMem(c: Config, s: State, a: Aux, b: Block, v: Value)
    requires Sane(c) && Inv(c, s, a) && s.ppc.Construct? && s.tailBlock == Some(b)
    ensures MemInv(c, s.mem[(b, Pos(c, |s.enq|)) := v], s.enq, Publish(v), a.blk, a.done)
  {
    hide Num, Pos, IndexInv, Consumers, ClaimInv, ResultInv, DoneInv;
    var T, mem := |s.enq|, s.mem[(b, Pos(c, |s.enq|)) := v];
    forall i: nat | i < T && i !in a.done ensures Stored(c, mem, a.blk, i, s.enq[i]) {
      assert Stored(c, s.mem, a.blk, i, s.enq[i]);
      NumPos(c, i, T);
      InRing(c, s, a, i);
    }
  }

  lemma KeepConstruct(c: Config, s: State, s': State, a: Aux, b: Block)
    requires Sane(c) && Inv(c, s, a) && s.ppc.Construct? && s.tailBlock == Some(b)
    requires s' == s.(mem := s.mem[(b, Pos(c, |s.enq|)) := s.ppc.v], ppc := Publish(s.ppc.v))
    ensures Inv(c, s', a)
  {
    hide Num, Pos, RingInv, DoneInv, MemInv, ConsumerOk, ClaimInv, ResultInv, EntryOk, SlotOf;
    ConstructMem(c, s, a, b, s.ppc.v);
  }

  lemma ViewPublish(c: Config, p: CPc, cp: nat, h: Header, off: int, vis: nat, blk: seq<Block>, enq: seq<Value>,
                    v: Value)
    requires Sane(c) && Looking(p) && 0 < p.e && Num(c, p.i) < |blk| && View(c, p, cp, h, off, vis, blk, enq)
    ensures View(c, p, cp, h, off, vis, blk, enq + [v])
  {
    hide Num, SlotOf, Shows, Looked, Walk, BlockEnd;
  }

  lemma ConsumersPublish(c: Config, s: State, s': State, a: Aux, v: Value)
    requires Sane(c) && Consumers(c, s, a) && s'.cpc == s.cpc && s'.head == s.head && s'.headers == s.headers &&
      s'.enq == s.enq + [v]
    ensures Consumers(c, s', a)
  {
    hide Num, View, Owns;
    forall t ensures ConsumerOk(c, PcAt(s'.cpc, t), t, s'.head, s'.enq, s'.headers, a) {
      var p := PcAt(s.cpc, t);
      assert ConsumerOk(c, p, t, s.head, s.enq, s.headers, a);
      if Looking(p) { ViewPublish(c, p, NumberAt(a.cp, t), s.headers[p.h], a.off[p.h], a.vis[p.h], a.blk, s.enq, v); }
    }
  }

  lemma PublishParts(c: Config, s: State, a: Aux, v: Value)
    requires Sane(c) && Inv(c, s, a) && s.ppc == Publish(v)
    ensures ResultInv(s.got, s.enq + [v], a.done) && DoneInv(c, s.head, |s.enq| + 1, s.flags, a.blk, s.used, a.done)
    ensures MemInv(c, s.mem, s.enq + [v], Ready, a.blk, a.done) && TailInv(c, |s.enq| + 1, |a.blk|, Ready)
  {
    NumSucc(c, |s.enq|);
    hide Num, Pos, Stored, RingInv, IndexInv, ClaimInv, Consumers;
  }

  lemma KeepPublish(c: Config, s: State, s': State, a: Aux)
    requires Sane(c) && Inv(c, s, a) && s.ppc.Publish? && s' == s.(enq := s.enq + [s.ppc.v], ppc := Ready)
    ensures Inv(c, s', a)
  {
    hide Num, Pos, SlotOf, EntryOk, RingInv, DoneInv, MemInv, TailInv, Consumers, ClaimInv, ResultInv;
    PublishParts(c, s, a, s.ppc.v);
    ConsumersPublish(c, s, s', a, s.ppc.v);
  }

  // ---------- The consumers' steps ----------

  /** A consumer moves on with the elements it owns; nothing that is shared changes. */
  lemma KeepLookup(c: Config, s: State, s': State, a: Aux, a': Aux, t: Cid, p: CPc)
    requires Sane(c) && Inv(c, s, a) && s' == s.(cpc := s.cpc[t := p])
    requires a' == a.(cp := a'.cp) && (forall u | u != t :: NumberAt(a'.cp, u) == NumberAt(a.cp, u))
    requires forall j: nat :: Owns(p, j) == Owns(PcAt(s.cpc, t), j)
    requires ConsumerOk(c, p, t, s.head, s.enq, s.headers, a')
    ensures Inv(c, s', a')
  {
    hide Num, Pos, RingInv, DoneInv, MemInv, IndexInv, TailInv, ResultInv, View, Owns, Holding;
    ClaimSame(s.cpc, s'.cpc, s.head, a.done, t);
    hide ClaimInv;
    forall u ensures ConsumerOk(c, PcAt(s'.cpc, u), u, s'.head, s'.enq, s'.headers, a') {
      assert ConsumerOk(c, PcAt(s.cpc, u), u, s.head, s.enq, s.headers, a);
    }
  }

  lemma ClaimSame(cpc: map<Cid, CPc>, cpc': map<Cid, CPc>, head: nat, done: set<nat>, t: Cid)
    requires ClaimInv(cpc, head, done) && t in cpc' && cpc' == cpc[t := cpc'[t]]
    requires forall j: nat :: Owns(cpc'[t], j) == Owns(PcAt(cpc, t), j)
    ensures ClaimInv(cpc', head, done)
  {
    hide Owns;
    forall u, i: nat ensures Owns(PcAt(cpc', u), i) == Owns(PcAt(cpc, u), i) {}
    forall i: nat | i < head && i !in done ensures exists u :: Owns(PcAt(cpc', u), i) {
      var u :| Owns(PcAt(cpc, u), i);
      assert Owns(PcAt(cpc', u), i);
    }
  }

  lemma ClaimGrows(cpc: map<Cid, CPc>, head: nat, done: set<nat>, t: Cid, n: nat)
    requires ClaimInv(cpc, head, done) && PcAt(cpc, t) == Away
    requires forall u, i: nat | Owns(PcAt(cpc, u), i) :: i < head
    ensures ClaimInv(cpc[t := LoadIndex(head, head + n)], head + n, done)
  {
    var cpc' := cpc[t := LoadIndex(head, head + n)];
    assert forall i: nat :: Owns(PcAt(cpc', t), i) <==> head <= i < head + n;
    hide Owns;
    assert forall u | u != t :: PcAt(cpc', u) == PcAt(cpc, u);
    forall u, w, i: nat | Owns(PcAt(cpc', u), i) && Owns(PcAt(cpc', w), i) ensures u == w {
      if u != t { assert Owns(PcAt(cpc, u), i); }
      if w != t { assert Owns(PcAt(cpc, w), i); }
    }
    forall i: nat | i < head + n && i !in done ensures exists u :: Owns(PcAt(cpc', u), i) {
      if i >= head { assert Owns(PcAt(cpc', t), i); }
      else { var u :| Owns(PcAt(cpc, u), i); assert Owns(PcAt(cpc', u), i); }
    }
  }

  lemma DoneHead(c: Config, head: nat, T: nat, flags: set<(Block, nat)>, blk: seq<Block>, used: nat, done: set<nat>,
                 n: nat)
    requires Sane(c) && DoneInv(c, head, T, flags, blk, used, done) && head + n <= T
    ensures DoneInv(c, head + n, T, flags, blk, used, done) && forall j | head <= j :: j !in done
  {
    hide Num, Pos;
  }

  lemma OwnsBelow(c: Config, s: State, a: Aux, t: Cid, j: nat)
    requires Sane(c) && Inv(c, s, a) && Owns(PcAt(s.cpc, t), j)
    ensures j < s.head <= |s.enq| && j !in a.done
  {
    hide Num, Pos, RingInv, MemInv, IndexInv, ClaimInv, ResultInv, Shows, Looked, SlotOf, Walk, BlockEnd;
    var p := PcAt(s.cpc, t);
    assert ConsumerOk(c, p, t, s.head, s.enq, s.headers, a);
    if p.SetEmpty? { InBlock(c, p.i, p.e, j); }
  }

  lemma KeepClaim(c: Config, s: State, s': State, a: Aux, t: Cid, n: nat)
    requires Sane(c) && Inv(c, s, a) && PcAt(s.cpc, t) == Away && 0 < n && s.head + n <= |s.enq|
    requires s' == s.(head := s.head + n, cpc := s.cpc[t := LoadIndex(s.head, s.head + n)])
    ensures Inv(c, s', a)
  {
    hide Num, Pos, RingInv, DoneInv, MemInv, IndexInv, TailInv, ClaimInv, ResultInv, View;
    forall u, i: nat | Owns(PcAt(s.cpc, u), i) ensures i < s.head { OwnsBelow(c, s, a, u, i); }
    DoneHead(c, s.head, |s.enq|, s.flags, a.blk, s.used, a.done, n);
    InRing(c, s, a, s.head);
    InRing(c, s, a, s.head + n - 1);
    ClaimGrows(s.cpc, s.head, a.done, t, n);
    hide Owns;
    assert Holding(c, LoadIndex(s.head, s.head + n), s'.head, a.blk,
      a.done) by { NewHolding(c, s.head, n, a.blk, a.done); }
    forall u ensures ConsumerOk(c, PcAt(s'.cpc, u), u, s'.head, s'.enq, s'.headers, a) {
      if u != t { assert ConsumerOk(c, PcAt(s.cpc, u), u, s.head, s.enq, s.headers, a); }
    }
  }

  lemma NewHolding(c: Config, head: nat, n: nat, blk: seq<Block>, done: set<nat>)
    requires Sane(c) && 0 < n && Num(c, head) < |blk| && Num(c, head + n - 1) < |blk| &&
      forall j | head <= j :: j !in done
    ensures Holding(c, LoadIndex(head, head + n), head + n, blk, done)
  {
    hide Num;
  }

  /** The index that is current when a consumer looks shows the consumer's block. */
  lemma CurrentShows(c: Config, s: State, a: Aux, i: nat)
    requires Sane(c) && Inv(c, s, a) && i < |s.enq| && i !in a.done
    ensures Shows(c, Last(s), a.off[|a.off| - 1], a.vis[|a.vis| - 1], a.blk, Num(c, i))
  {
    hide Num, Pos, RingInv, DoneInv, MemInv, ClaimInv, ResultInv, Consumers, SlotOf, EntryOk;
    InRing(c, s, a, i);
  }

  lemma KeepLoadIndex(c: Config, s: State, s': State, a: Aux, t: Cid)
    requires Sane(c) && Inv(c, s, a) && PcAt(s.cpc, t).LoadIndex?
    requires var p := PcAt(s.cpc, t); s' == s.(cpc := s.cpc[t := LoadFront(p.i, p.e, |s.headers| - 1)])
    ensures Inv(c, s', a)
  {
    hide Inv, Num, Shows;
    var p := PcAt(s.cpc, t);
    KnowConsumer(c, s, a, t);
    assert p.i < p.e && Owns(p, p.i) && Owns(p, p.e - 1);
    CurrentShows(c, s, a, p.i);
    InRing(c, s, a, p.e - 1);
    KeepLookup(c, s, s', a, a, t, LoadFront(p.i, p.e, |s.headers| - 1));
  }

  lemma KnowConsumer(c: Config, s: State, a: Aux, t: Cid)
    requires Sane(c) && Inv(c, s, a)
    ensures ConsumerOk(c, PcAt(s.cpc, t), t, s.head, s.enq, s.headers, a)
    ensures s.head <= |s.enq| && |a.off| == |a.vis| == |s.headers| > 0
  {
    hide ConsumerOk, RingInv, IndexInv, MemInv, ClaimInv, ResultInv, Num, Pos;
  }

  lemma FrontLooked(c: Config, h: Header, off: int, vis: nat, blk: seq<Block>, n: nat, hi: nat)
    requires Sane(c) && Shows(c, h, off, vis, blk, n) && n <= hi < vis
    ensures vis > 0 && Looked(c, h, off, vis, blk, n, hi, vis - 1, h.front) && h.base[h.front] == (vis - 1) * c.B % c.W
  {
    hide SlotOf;
    assert EntryOk(c, h, off, blk, vis - 1) && EntryOk(c, h, off, blk, hi);
    forall k | n <= k <= hi ensures h.block[SlotOf(off, h.size, k)] == blk[k] { assert EntryOk(c, h, off, blk, k); }
  }

  lemma KeepLoadFront(c: Config, s: State, s': State, a: Aux, t: Cid) returns (a': Aux)
    requires Sane(c) && Inv(c, s, a) && PcAt(s.cpc, t).LoadFront? && PcAt(s.cpc, t).h < |s.headers|
    requires var p := PcAt(s.cpc, t); s' == s.(cpc := s.cpc[t := LoadBase(p.i, p.e, p.h, s.headers[p.h].front)])
    ensures Inv(c, s', a')
  {
    hide Inv, Num, Shows, Looked;
    var p := PcAt(s.cpc, t);
    KnowConsumer(c, s, a, t);
    var h := s.headers[p.h];
    NumUp(c, p.i, p.e - 1);
    FrontLooked(c, h, a.off[p.h], a.vis[p.h], a.blk, Num(c, p.i), Num(c, p.e - 1));
    a' := a.(cp := a.cp[t := a.vis[p.h] - 1]);
    KeepLookup(c, s, s', a, a', t, LoadBase(p.i, p.e, p.h, h.front));
  }

  lemma NumUp(c: Config, i: nat, j: nat)
    requires Sane(c) && i <= j
    ensures Num(c, i) <= Num(c, j)
  {
    NumPos(c, i, j);
  }

  lemma KeepLoadBase(c: Config, s: State, s': State, a: Aux, t: Cid)
    requires Sane(c) && Inv(c, s, a) && PcAt(s.cpc, t).LoadBase?
    requires var p := PcAt(s.cpc, t);
      && p.h < |s.headers| && s.headers[p.h].size > 0 && 0 <= p.f < |s.headers[p.h].base|
      && s' == s.(cpc :=
        s.cpc[t := LoadBlock(p.i, p.e, p.h, Slot(c, s.headers[p.h].size, p.f, p.i, s.headers[p.h].base[p.f]))])
    ensures Inv(c, s', a)
  {
    hide Inv, Num, SlotOf, Slot, Walk;
    var p := PcAt(s.cpc, t);
    KnowConsumer(c, s, a, t);
    SlotRight(c, s.headers[p.h].size, a.off[p.h], p.i, NumberAt(a.cp, t));
    KeepLookup(c, s, s', a, a, t, s'.cpc[t]);
  }

  lemma KeepLoadBlock(c: Config, s: State, s': State, a: Aux, t: Cid)
    requires Sane(c) && Inv(c, s, a) && PcAt(s.cpc, t).LoadBlock?
    requires var p := PcAt(s.cpc, t);
      && p.h < |s.headers| && 0 <= p.k < |s.headers[p.h].block|
      && s' == s.(cpc := s.cpc[t := Read(p.i, p.e, p.h, p.k, s.headers[p.h].block[p.k], [])])
    ensures Inv(c, s', a)
  {
    hide Inv, Num, SlotOf, BlockEnd;
    var p := PcAt(s.cpc, t);
    KnowConsumer(c, s, a, t);
    InBlock(c, p.i, p.e, p.i);
    NumUp(c, p.i, p.e - 1);
    KeepLookup(c, s, s', a, a, t, s'.cpc[t]);
  }

  /** A claimed element that is not done lies where its consumer looks for it. */
  lemma ReadStored(c: Config, s: State, a: Aux, i: nat)
    requires Sane(c) && Inv(c, s, a) && i < s.head && i !in a.done
    ensures i < |s.enq| && Stored(c, s.mem, a.blk, i, s.enq[i])
  {
    hide Num, Pos, RingInv, IndexInv, ClaimInv, ResultInv, Consumers, Stored;
  }

  lemma TakenView(c: Config, p: CPc, x: Value, cp: nat, h: Header, off: int, vis: nat, blk: seq<Block>, enq: seq<Value>)
    requires Sane(c) && p.Read? && p.i < p.e && Num(c, p.i) < |blk| && View(c, p, cp, h, off, vis, blk, enq)
    requires p.i + |p.xs| < |enq| && x == enq[p.i + |p.xs|]
    ensures View(c, Taken(c, p, x), cp, h, off, vis, blk, enq)
    ensures forall j: nat :: Owns(Taken(c, p, x), j) == Owns(p, j)
  {
    hide Num, SlotOf, Walk, BlockEnd;
    InBlock(c, p.i, p.e, p.i);
  }

  /** The next value that a reading consumer gets is that of the element it stands for. */
  ghost predicate ReadsOwn(c: Config, p: CPc, mem: map<(Block, nat), Value>, enq: seq<Value>, blk: seq<Block>)
    requires Sane(c) && p.Read?
  {
    var j := p.i + |p.xs|;
    && p.i < p.e && Num(c, p.i) < |blk| && j < |enq| && p.b == blk[Num(c, p.i)] && Num(c, j) == Num(c, p.i)
    && (p.b, Pos(c, j)) in mem && mem[(p.b, Pos(c, j))] == enq[j]
  }

  ghost predicate ReadPlace(c: Config, p: CPc, head: nat, blk: seq<Block>, done: set<nat>)
    requires Sane(c) && p.Read?
  {
    var j := p.i + |p.xs|;
    && p.i < p.e <= head && Num(c, p.i) < |blk| && p.b == blk[Num(c, p.i)]
    && p.i <= j < BlockEnd(c, p.i, p.e) && (j < p.e ==> j !in done)
  }

  lemma KnowRead(c: Config, s: State, a: Aux, t: Cid)
    requires Sane(c) && Inv(c, s, a) && PcAt(s.cpc, t).Read?
    ensures ReadPlace(c, PcAt(s.cpc, t), s.head, a.blk, a.done)
  {
    hide Inv, Num, BlockEnd, Walk, SlotOf;
    KnowConsumer(c, s, a, t);
    var p := PcAt(s.cpc, t);
    if p.i + |p.xs| < p.e { assert Owns(p, p.i + |p.xs|); }
  }

  lemma ReadNext(c: Config, s: State, a: Aux, t: Cid)
    requires Sane(c) && Inv(c, s, a) && PcAt(s.cpc, t).Read?
    ensures ReadsOwn(c, PcAt(s.cpc, t), s.mem, s.enq, a.blk)
  {
    hide Inv, Num, Pos, BlockEnd, Sane;
    var p := PcAt(s.cpc, t);
    KnowRead(c, s, a, t);
    InBlock(c, p.i, p.e, p.i + |p.xs|);
    ReadStored(c, s, a, p.i + |p.xs|);
  }

  lemma TakenOk(c: Config, s: State, a: Aux, t: Cid, x: Value)
    requires Sane(c) && PcAt(s.cpc, t).Read? && ConsumerOk(c, PcAt(s.cpc, t), t, s.head, s.enq, s.headers, a)
    requires var p := PcAt(s.cpc, t); p.i + |p.xs| < |s.enq| && x == s.enq[p.i + |p.xs|]
    ensures ConsumerOk(c, Taken(c, PcAt(s.cpc, t), x), t, s.head, s.enq, s.headers, a)
    ensures forall j: nat :: Owns(Taken(c, PcAt(s.cpc, t), x), j) == Owns(PcAt(s.cpc, t), j)
  {
    hide Num, View, Owns, BlockEnd;
    var p := PcAt(s.cpc, t);
    TakenView(c, p, x, NumberAt(a.cp, t), s.headers[p.h], a.off[p.h], a.vis[p.h], a.blk, s.enq);
  }

  ghost predicate ReadStep(c: Config, s: State, s': State, t: Cid)
    requires Sane(c)
  {
    && PcAt(s.cpc, t).Read?
    && var p := PcAt(s.cpc, t);
    var at := (p.b, Pos(c, p.i + |p.xs|));
    at in s.mem && s' == s.(cpc := s.cpc[t := Taken(c, p, s.mem[at])])
  }

  lemma KeepRead(c: Config, s: State, s': State, a: Aux, t: Cid)
    requires Sane(c) && Inv(c, s, a) && ReadStep(c, s, s', t)
    ensures Inv(c, s', a)
  {
    hide Inv, Num, Pos, ConsumerOk, Taken, Owns, Sane;
    var p := PcAt(s.cpc, t);
    KnowConsumer(c, s, a, t);
    ReadNext(c, s, a, t);
    TakenOk(c, s, a, t, s.enq[p.i + |p.xs|]);
    KeepLookup(c, s, s', a, a, t, Taken(c, p, s.enq[p.i + |p.xs|]));
  }

  lemma DoneAdds(c: Config, s: State, a: Aux, i: nat, b: Block)
    requires Sane(c) && Inv(c, s, a) && i < s.head && i !in a.done && Num(c, i) < |a.blk| && b == a.blk[Num(c, i)]
    ensures DoneInv(c, s.head, |s.enq|, s.flags + {(b, Pos(c, i))}, a.blk, s.used, a.done + {i})
    ensures (b, Pos(c, i)) !in s.flags
  {
    hide Num, Pos, MemInv, IndexInv, TailInv, ClaimInv, ResultInv, Consumers, Sane;
    InRing(c, s, a, i);
    forall j: nat | |a.blk| - s.used <= Num(c, j) < |a.blk|
      ensures (a.blk[Num(c, j)], Pos(c, j)) in s.flags + {(b, Pos(c, i))} <==> j in a.done + {i}
    {
      NumPos(c, i, j);
    }
  }

  lemma ResultAdds(got: seq<(nat, Value)>, enq: seq<Value>, done: set<nat>, i: nat, x: Value)
    requires ResultInv(got, enq, done) && i !in done && i < |enq| && x == enq[i]
    ensures ResultInv(got + [(i, x)], enq, done + {i})
  {
    var got' := got + [(i, x)];
    forall j | j in done + {i} ensures exists k :: 0 <= k < |got'| && got'[k].0 == j {
      if j == i { assert got'[|got|].0 == i; }
      else { var k :| 0 <= k < |got| && got[k].0 == j; assert got'[k].0 == j; }
    }
  }

  lemma ClaimEnds(cpc: map<Cid, CPc>, head: nat, done: set<nat>, t: Cid, p: CPc, i: nat)
    requires ClaimInv(cpc, head, done) && Owns(PcAt(cpc, t), i)
    requires forall j: nat :: Owns(p, j) <==> Owns(PcAt(cpc, t), j) && j != i
    ensures ClaimInv(cpc[t := p], head, done + {i})
  {
    hide Owns;
    var cpc' := cpc[t := p];
    forall u, w, j: nat | Owns(PcAt(cpc', u), j) && Owns(PcAt(cpc', w), j) ensures u == w {
      assert Owns(PcAt(cpc, u), j) && Owns(PcAt(cpc, w), j);
    }
    forall j: nat | j < head && j !in done + {i} ensures exists u :: Owns(PcAt(cpc', u), j) {
      var u :| Owns(PcAt(cpc, u), j);
      assert Owns(PcAt(cpc', u), j);
    }
  }

  /** Element l, whose flag a consumer is about to set, is its own, in block b. */
  ghost predicate EmptiesOwn(c: Config, p: CPc, headers: seq<Header>, head: nat, enq: seq<Value>, a: Aux)
    requires Sane(c) && p.SetEmpty?
  {
    && p.xs != [] && p.h < |headers| && headers[p.h].size > 0
    && var l := p.i + |p.xs| - 1;
    && Owns(p, l) && l < head <= |enq| && l !in a.done && Num(c, l) < |a.blk| && p.b == a.blk[Num(c, l)]
    && p.xs[|p.xs| - 1] == enq[l]
  }

  lemma LastOwned(c: Config, s: State, a: Aux, t: Cid)
    requires Sane(c) && Inv(c, s, a) && PcAt(s.cpc, t).SetEmpty?
    ensures EmptiesOwn(c, PcAt(s.cpc, t), s.headers, s.head, s.enq, a)
  {
    hide Inv, Num, SlotOf, BlockEnd;
    var p := PcAt(s.cpc, t);
    KnowConsumer(c, s, a, t);
    var l := p.i + |p.xs| - 1;
    InBlock(c, p.i, p.e, l);
    assert Owns(p, l);
  }

  lemma EmptiedView(c: Config, p: CPc, cp: nat, h: Header, off: int, vis: nat, blk: seq<Block>, enq: seq<Value>)
    requires Sane(c) && p.SetEmpty? && p.i < p.e && Num(c, p.i) < |blk| && View(c, p, cp, h, off, vis, blk, enq)
    ensures p.xs != [] && h.size > 0
    ensures var q := Emptied(p, h.size);
      && (q != Away ==>
        p.i <= q.i < q.e == p.e && q.h == p.h && Looking(q) && Num(c, q.i) < |blk| &&
          View(c, q, cp, h, off, vis, blk, enq))
      && forall j: nat :: Owns(q, j) <==> Owns(p, j) && j != p.i + |p.xs| - 1
  {
    hide Num, SlotOf, BlockEnd;
    InBlock(c, p.i, p.e, p.i);
    SlotSucc(off, h.size, Num(c, p.i));
    NumUp(c, p.m, if p.m < p.e then p.e - 1 else p.m);
  }

  /** Where a consumer is when it has set one flag, it has one element less and still knows what it needs. */
  ghost predicate GoesOn(c: Config, p: CPc, t: Cid, head: nat, enq: seq<Value>, headers: seq<Header>, a: Aux)
    requires Sane(c) && p.SetEmpty?
  {
    && p.xs != [] && p.h < |headers| && headers[p.h].size > 0
    && var l, q := p.i + |p.xs| - 1, Emptied(p, headers[p.h].size);
    && (forall j: nat :: Owns(q, j) <==> Owns(p, j) && j != l)
    && ConsumerOk(c, q, t, head, enq, headers, a.(done := a.done + {l}))
  }

  lemma EmptiedOk(c: Config, s: State, a: Aux, t: Cid)
    requires Sane(c) && Inv(c, s, a) && PcAt(s.cpc, t).SetEmpty?
    ensures GoesOn(c, PcAt(s.cpc, t), t, s.head, s.enq, s.headers, a)
  {
    hide Inv, Num, View, Owns, Emptied;
    var p := PcAt(s.cpc, t);
    KnowConsumer(c, s, a, t);
    EmptiedView(c, p, NumberAt(a.cp, t), s.headers[p.h], a.off[p.h], a.vis[p.h], a.blk, s.enq);
  }

  lemma MemDone(c: Config, s: State, a: Aux, l: nat)
    requires Sane(c) && Inv(c, s, a)
    ensures MemInv(c, s.mem, s.enq, s.ppc, a.blk, a.done + {l})
  {
    hide Num, Pos, Stored, RingInv, IndexInv, DoneInv, ClaimInv, ResultInv, Consumers;
  }

  lemma KeepSetEmpty(c: Config, s: State, s': State, a: Aux, t: Cid) returns (a': Aux)
    requires Sane(c) && Inv(c, s, a) && PcAt(s.cpc, t).SetEmpty?
    requires var p := PcAt(s.cpc, t);
      && p.xs != [] && p.h < |s.headers| && s.headers[p.h].size > 0
      && s' == s.(flags := s.flags + {(p.b, Pos(c, p.i + |p.xs| - 1))},
        got := s.got + [(p.i + |p.xs| - 1, p.xs[|p.xs| - 1])],
                  cpc := s.cpc[t := Emptied(p, s.headers[p.h].size)])
    ensures Inv(c, s', a')
  {
    hide Inv, Num, Pos, Emptied, ConsumerOk, Owns;
    var p := PcAt(s.cpc, t);
    LastOwned(c, s, a, t);
    EmptiedOk(c, s, a, t);
    a' := KeepDone(c, s, s', a, t, Emptied(p, s.headers[p.h].size), p.i + |p.xs| - 1, p.b);
  }

  /** Consumer t is done with element l, and goes on to p. */
  lemma KeepDone(c: Config, s: State, s': State, a: Aux, t: Cid, p: CPc, l: nat, b: Block) returns (a': Aux)
    requires Sane(c) && Inv(c, s, a) && Owns(PcAt(s.cpc, t), l)
    requires l < s.head <= |s.enq| && l !in a.done && Num(c, l) < |a.blk| && b == a.blk[Num(c, l)]
    requires forall j: nat :: Owns(p, j) <==> Owns(PcAt(s.cpc, t), j) && j != l
    requires ConsumerOk(c, p, t, s.head, s.enq, s.headers, a.(done := a.done + {l}))
    requires s' == s.(flags := s.flags + {(b, Pos(c, l))}, got := s.got + [(l, s.enq[l])], cpc := s.cpc[t := p])
    ensures Inv(c, s', a')
  {
    hide Num, Pos, RingInv, DoneInv, MemInv, IndexInv, TailInv, ResultInv, Owns, ConsumerOk, ClaimInv;
    a' := a.(done := a.done + {l});
    MemDone(c, s, a, l);
    DoneAdds(c, s, a, l, b);
    ResultAdds(s.got, s.enq, a.done, l, s.enq[l]);
    ClaimEnds(s.cpc, s.head, a.done, t, p, l);
    forall u ensures ConsumerOk(c, PcAt(s'.cpc, u), u, s'.head, s'.enq, s'.headers, a') {
      if u != t { OthersUndone(c, s, a, t, u, l); }
    }
  }

  /** An element that consumer t finishes is none of consumer u's. */
  lemma OthersUndone(c: Config, s: State, a: Aux, t: Cid, u: Cid, l: nat)
    requires Sane(c) && Inv(c, s, a) && Owns(PcAt(s.cpc, t), l) && u != t
    ensures ConsumerOk(c, PcAt(s.cpc, u), u, s.head, s.enq, s.headers, a.(done := a.done + {l}))
  {
    hide Num, Pos, RingInv, DoneInv, MemInv, IndexInv, ResultInv, View, Owns;
    assert ConsumerOk(c, PcAt(s.cpc, u), u, s.head, s.enq, s.headers, a);
    forall j: nat | Owns(PcAt(s.cpc, u), j) ensures j != l {}
  }

  lemma KeepConsume(c: Config, s: State, a: Aux, t: Cid, n: nat) returns (a': Aux)
    requires Sane(c) && Inv(c, s, a)
    ensures Inv(c, Consumed(c, s, t, n), a')
  {
    hide Inv, ConsumerOk, BlockEnd, Slot;
    a' := a;
    var s' := Consumed(c, s, t, n);
    if s' != s {
      match At(s, t)
      case Away => KeepClaim(c, s, s', a, t, n);
      case LoadIndex(i, e) => KeepLoadIndex(c, s, s', a, t);
      case LoadFront(i, e, h) => a' := KeepLoadFront(c, s, s', a, t);
      case LoadBase(i, e, h, f) => KeepLoadBase(c, s, s', a, t);
      case LoadBlock(i, e, h, k) => KeepLoadBlock(c, s, s', a, t);
      case Read(i, e, h, k, b, xs) => KeepRead(c, s, s', a, t);
      case SetEmpty(i, m, e, h, k, b, xs) => a' := KeepSetEmpty(c, s, s', a, t);
    }
  }

  /** What the invariant tells the producer. */
  lemma KnowProducer(c: Config, s: State, a: Aux)
    requires Sane(c) && Inv(c, s, a)
    ensures RingInv(s.next, s.tailBlock, a.blk, s.used) && TailInv(c, |s.enq|, |a.blk|, s.ppc)
    ensures s.tailBlock == if |a.blk| == 0 then None else Some(a.blk[|a.blk| - 1])
    ensures Shape(s) && s.used <= Last(s).size && (s.ppc.Requisition? ==> s.used < Last(s).size)
    ensures |a.vis| > 0 && (Putting(s.ppc) ==> a.vis[|a.vis| - 1] + 1 == |a.blk|)
    ensures s.ppc.PutBlock? ==> Last(s).base[s.front] == a.vis[|a.vis| - 1] * c.B % c.W
  {
    hide Num, Pos, SlotOf, EntryOk, Stored, ConsumerOk;
  }

  lemma KeepReuse(c: Config, s: State, s': State, a: Aux, b: Block) returns (a': Aux)
    requires Sane(c) && Inv(c, s, a) && s.ppc.TryReuse? && s.tailBlock.Some? && s.tailBlock.value in s.next
    requires b == s.next[s.tailBlock.value] && AllEmpty(s.flags, b, c.B)
    requires s' == s.(tailBlock := Some(b), flags := Reset(s.flags, b), ppc := PutBase(s.ppc.v))
    ensures Inv(c, s', a')
  {
    hide Inv, RingInv, Num, Pos;
    KnowProducer(c, s, a);
    RingRotates(s.next, a.blk, s.used, b);
    a' := KeepNewBlock(c, s, s', a, b, s.used);
  }

  lemma KeepInsert(c: Config, s: State, s': State, a: Aux, b: Block) returns (a': Aux)
    requires Sane(c) && Inv(c, s, a) && s.ppc.Requisition? && b !in s.next
    requires s'.next == Linked(s.next, s.tailBlock, b)
    requires s' ==
      s.(next := s'.next, tailBlock := Some(b), flags := Reset(s.flags, b), used := s.used + 1, ppc := PutBase(s.ppc.v))
    ensures Inv(c, s', a')
  {
    hide Inv, RingInv, Num, Pos;
    KnowProducer(c, s, a);
    RingInserts(s.next, s.tailBlock, a.blk, s.used, b);
    a' := KeepNewBlock(c, s, s', a, b, s.used + 1);
  }

  /** The steps that end with a new newest block. */
  lemma KeepGet(c: Config, s: State, a: Aux, seesEmpty: bool, block: Option<Block>) returns (a': Aux)
    requires Sane(c) && Inv(c, s, a) && (s.ppc.TryReuse? || s.ppc.Room? || s.ppc.Requisition?)
    ensures Inv(c, Produced(c, s, seesEmpty, block), a')
  {
    a' := a;
    KnowProducer(c, s, a);
    hide Inv, RingInv, Num, Pos, SlotOf, Reset, AllEmpty, Grown;
    var s' := Produced(c, s, seesEmpty, block);
    if s.ppc.Room? && |s'.headers| > |s.headers| {
      a' := KeepGrow(c, s, s', a);
    } else if s.ppc.TryReuse? && s'.ppc.PutBase? {
      a' := KeepReuse(c, s, s', a, s'.tailBlock.value);
    } else if s.ppc.Requisition? && s'.ppc.PutBase? {
      a' := KeepInsert(c, s, s', a, block.value);
    } else {
      KeepProducerPc(c, s, s', a);
    }
  }

  lemma KeepProduce(c: Config, s: State, a: Aux, seesEmpty: bool, block: Option<Block>) returns (a': Aux)
    requires Sane(c) && Inv(c, s, a)
    ensures Inv(c, Produced(c, s, seesEmpty, block), a')
  {
    KnowProducer(c, s, a);
    if s.ppc.TryReuse? || s.ppc.Room? || s.ppc.Requisition? {
      a' := KeepGet(c, s, a, seesEmpty, block);
    } else {
      a' := a;
      var s' := Produced(c, s, seesEmpty, block);
      assert |s.enq| % c.B == Pos(c, |s.enq|);
      hide Inv, RingInv, Num, Pos, SlotOf;
      match s.ppc
      case Ready =>
      case PutBase(v) =>
        TailBase(c, |s.enq|, a.vis[|a.vis| - 1]);
        KeepPut(c, s, s', a, Last(s'));
      case PutBlock(v) => KeepPut(c, s, s', a, Last(s'));
      case PutFront(v) => a' := KeepPutFront(c, s, s', a);
      case Construct(v) => KeepConstruct(c, s, s', a, s.tailBlock.value);
      case Publish(v) => KeepPublish(c, s, s', a);
    }
  }

  lemma TailBase(c: Config, T: nat, k: nat)
    requires Sane(c) && Num(c, T) == k && Pos(c, T) == 0
    ensures T == k * c.B
  {
    NumPos(c, T, T);
  }

  lemma KeepEnqueue(c: Config, s: State, v: Value, a: Aux)
    requires Sane(c) && Inv(c, s, a)
    ensures Inv(c, Next(c, s, Enqueue(v)), a)
  {
    if s.ppc == Ready {
      KnowProducer(c, s, a);
      hide Inv, RingInv;
      KeepProducerPc(c, s, Next(c, s, Enqueue(v)), a);
    }
  }

  lemma InitInv(c: Config)
    requires Sane(c)
    ensures Inv(c, Init(c), Aux([], [0], [0], {}, map[]))
  {
    NumPos(c, 0, 0);
    ModSmall(0, c.size0);
  }

  lemma {:induction false} ExecInv(c: Config, acts: seq<Act>) returns (a: Aux)
    requires Sane(c)
    ensures Inv(c, Exec(c, acts), a)
  {
    if acts == [] {
      InitInv(c);
      a := Aux([], [0], [0], {}, map[]);
    } else {
      hide Inv;
      var n := |acts| - 1;
      a := ExecInv(c, acts[..n]);
      match acts[n]
      case Enqueue(v) => KeepEnqueue(c, Exec(c, acts[..n]), v, a);
      case Produce(seesEmpty, block) => a := KeepProduce(c, Exec(c, acts[..n]), a, seesEmpty, block);
      case Consume(t, m) => a := KeepConsume(c, Exec(c, acts[..n]), a, t, m);
    }
  }

  // ---------- What every schedule guarantees ----------

  /** The state before step n of a schedule. */
  function Before(c: Config, acts: seq<Act>, n: nat): State
    requires Sane(c) && n <= |acts|
  {
    Exec(c, acts[..n])
  }

  lemma StepOf(c: Config, acts: seq<Act>, n: nat)
    requires Sane(c) && n < |acts|
    ensures Before(c, acts, n + 1) == Next(c, Before(c, acts, n), acts[n])
  {
    assert acts[..n + 1][..n] == acts[..n];
  }

  /** What a step is to the producer's calls, told from the schedule and what it shows outside. */
  function EventOf(s: State, act: Act, s': State): Ledger.Event<Value> {
    if s.ppc == Ready then if act.Enqueue? then Ledger.Called(act.v) else Ledger.Quiet
    else if s'.ppc != Ready then Ledger.Quiet
    else if |s'.enq| > |s.enq| then Ledger.Published
    else Ledger.Refused
  }

  function Events(c: Config, acts: seq<Act>): (r: seq<Ledger.Event<Value>>)
    requires Sane(c)
    ensures |r| == |acts|
  {
    if acts == [] then []
    else
      var n := |acts| - 1;
      Events(c, acts[..n]) + [EventOf(Exec(c, acts[..n]), acts[n], Exec(c, acts))]
  }

  /** A call among the events is a call of `enqueue` in the schedule, made while the producer was outside. */
  lemma {:induction false} EventAt(c: Config, acts: seq<Act>, i: nat)
    requires Sane(c) && i < |acts|
    ensures Events(c, acts)[i] == EventOf(Before(c, acts, i), acts[i], Before(c, acts, i + 1))
  {
    hide Exec, EventOf;
    var n := |acts| - 1;
    if i < n {
      EventAt(c, acts[..n], i);
      assert acts[..n][..i] == acts[..i] && acts[..n][..i + 1] == acts[..i + 1];
    } else {
      assert acts[..i + 1] == acts;
    }
  }

  /** What a step does to the values: `Enqueue` brings one in, `Publish` hands it on. */
  lemma ValueStep(c: Config, s: State, act: Act)
    requires Sane(c) && Shape(s)
    ensures var s' := Next(c, s, act);
      && (act.Enqueue? && s.ppc == Ready ==> s'.enq == s.enq && s'.ppc != Ready && s'.ppc.v == act.v)
      && (!act.Enqueue? && s.ppc == Ready ==> s'.enq == s.enq && s'.ppc == Ready)
      && (s.ppc != Ready ==>
        || (s'.enq == s.enq && s'.ppc != Ready && s'.ppc.v == s.ppc.v)
        || (s'.ppc == Ready && (s'.enq == s.enq || s'.enq == s.enq + [s.ppc.v])))
  {
    hide AllEmpty, Reset, Slot, Sane, Taken, Emptied;
  }

  /**
   The values published are those passed to the calls of `enqueue` that published, in the order of
   the calls, each call at most once; a call still open has its value in hand.
   */
  lemma {:induction false} ValuesSent(c: Config, acts: seq<Act>)
    requires Sane(c)
    ensures Exec(c, acts).enq == Ledger.Values(Events(c, acts))
    ensures Ledger.InHand(Events(c, acts)) == if Exec(c, acts).ppc == Ready then None else Some(Exec(c, acts).ppc.v)
  {
    hide Next;
    if acts != [] {
      var n := |acts| - 1;
      ValuesSent(c, acts[..n]);
      var s, s' := Exec(c, acts[..n]), Exec(c, acts);
      ValueStep(c, s, acts[n]);
      Ledger.Then(Events(c, acts[..n]), EventOf(s, acts[n], s'));
    }
  }

  /** Value x is what the call of `enqueue` passed that was the i-th to publish. */
  ghost predicate SentAs(c: Config, acts: seq<Act>, i: nat, x: Value)
    requires Sane(c)
  {
    var at := Ledger.Sent(Events(c, acts));
    i < |at| && at[i] < |acts| && acts[at[i]] == Enqueue(x)
  }

  lemma EnqSent(c: Config, acts: seq<Act>, i: nat)
    requires Sane(c) && i < |Exec(c, acts).enq|
    ensures SentAs(c, acts, i, Exec(c, acts).enq[i])
  {
    hide Exec;
    ValuesSent(c, acts);
    var events := Events(c, acts);
    Ledger.ValuesSent(events);
    EventAt(c, acts, Ledger.Sent(events)[i]);
  }

  /**
   Every value a consumer returned is the one passed to the call of `enqueue` that published it
   under its number, each number once.
   */
  lemma ResultsRight(c: Config, acts: seq<Act>)
    requires Sane(c)
    ensures var s := Exec(c, acts); forall k | 0 <= k < |s.got| :: SentAs(c, acts, s.got[k].0, s.got[k].1)
    ensures var s := Exec(c, acts); forall k, l | 0 <= k < l < |s.got| :: s.got[k].0 != s.got[l].0
  {
    var a := ExecInv(c, acts);
    var s := Exec(c, acts);
    assert ResultInv(s.got, s.enq, a.done);
    hide Inv, Exec, SentAs;
    forall k | 0 <= k < |s.got| ensures SentAs(c, acts, s.got[k].0, s.got[k].1) { EnqSent(c, acts, s.got[k].0); }
  }

  lemma QuietDone(c: Config, s: State, a: Aux, i: nat)
    requires Sane(c) && Inv(c, s, a) && forall t :: At(s, t) == Away
    ensures i < s.head <==> exists k :: 0 <= k < |s.got| && s.got[k].0 == i
  {
    hide RingInv, IndexInv, MemInv, Consumers, Num, Pos;
    forall t ensures !Owns(PcAt(s.cpc, t), i) { assert At(s, t) == Away; }
    assert i < s.head ==> i in a.done;
    if k :| 0 <= k < |s.got| && s.got[k].0 == i { assert s.got[k].0 in a.done; }
  }

  /** Once every consumer is away, exactly the numbers below the head have been returned. */
  lemma NothingLost(c: Config, acts: seq<Act>, i: nat)
    requires Sane(c) && forall t :: At(Exec(c, acts), t) == Away
    ensures i < Exec(c, acts).head <==> exists k :: 0 <= k < |Exec(c, acts).got| && Exec(c, acts).got[k].0 == i
  {
    var a := ExecInv(c, acts);
    QuietDone(c, Exec(c, acts), a, i);
  }

  // ---------- When `enqueue` succeeds ----------

  /** Neither the range of the index type nor the block index is exhausted. */
  predicate HasRoom(c: Config, s: State)
    requires Sane(c) && Shape(s)
  {
    && |s.enq| + c.B - s.head < c.W / 2
    && (s.used == Last(s).size ==> (c.W / c.B) % (2 * Last(s).size) == 0)
  }

  /** The producer cannot have a new block: there is no room for it, or there is none. */
  predicate NoBlock(c: Config, s: State, block: Option<Block>)
    requires Sane(c) && Shape(s)
  {
    !HasRoom(c, s) || block == None || block.value in s.next
  }

  /**
   A call of `enqueue` ends by publishing its element, or, having changed none, because it is at the
   start of a block and cannot have another one.
   */
  lemma EnqueueEnds(c: Config, acts: seq<Act>, n: nat)
    requires Sane(c) && n < |acts| && Before(c, acts, n).ppc != Ready && Before(c, acts, n + 1).ppc == Ready
    ensures acts[n].Produce?
    ensures var s, s' := Before(c, acts, n), Before(c, acts, n + 1);
      || (s'.enq == s.enq + [s.ppc.v] && s'.head == s.head)
      || (s' == s.(ppc := Ready) && |s.enq| % c.B == 0 && NoBlock(c, s, acts[n].block))
  {
    hide Exec, Next, Inv, NoBlock;
    var a := ExecInv(c, acts[..n]);
    StepOf(c, acts, n);
    EnqueueStep(c, Before(c, acts, n), a, acts[n]);
  }

  lemma EnqueueStep(c: Config, s: State, a: Aux, act: Act)
    requires Sane(c) && Shape(s) && Inv(c, s, a) && s.ppc != Ready && Next(c, s, act).ppc == Ready
    ensures act.Produce?
    ensures var s' := Next(c, s, act);
      || (s'.enq == s.enq + [s.ppc.v] && s'.head == s.head)
      || (s' == s.(ppc := Ready) && |s.enq| % c.B == 0 && NoBlock(c, s, act.block))
  {
    hide Inv, RingInv, AllEmpty, Reset, Slot, Taken, Emptied, Grown, Num;
    KnowProducer(c, s, a);
    if act.Consume? { ConsumedHeaders(c, s, act.c, act.n); }
  }

  function Distance(p: PPc): nat {
    match p
    case Ready => 0
    case TryReuse(_) => 8
    case Room(_) => 7
    case Requisition(_) => 6
    case PutBase(_) => 5
    case PutBlock(_) => 4
    case PutFront(_) => 3
    case Construct(_) => 2
    case Publish(_) => 1
  }

  /** Nothing will stop the call from publishing, if it is given a block. */
  predicate WillDo(c: Config, s: State)
    requires Sane(c) && Shape(s)
  {
    s.ppc.TryReuse? || s.ppc.Room? ==> HasRoom(c, s)
  }

  /** One step of the producer brings it nearer to publishing. */
  ghost predicate Closer(c: Config, s: State, s': State)
    requires Sane(c) && Shape(s) && Shape(s') && s.ppc != Ready
  {
    && Distance(s'.ppc) < Distance(s.ppc) && s'.head == s.head
    && (s'.ppc.Room? || s'.ppc.Requisition? ==> s'.next == s.next)
    && if s'.ppc == Ready then s'.enq == s.enq + [s.ppc.v]
       else s'.enq == s.enq && s'.ppc.v == s.ppc.v && WillDo(c, s')
  }

  lemma Nearer(c: Config, s: State, a: Aux, seesEmpty: bool, block: Option<Block>)
    requires Sane(c) && Shape(s) && Inv(c, s, a) && s.ppc != Ready && WillDo(c, s)
    requires s.ppc.Room? ==> block.Some?
    requires s.ppc.Requisition? ==> block.Some? && block.value !in s.next
    ensures Closer(c, s, Next(c, s, Produce(seesEmpty, block)))
  {
    hide Inv, RingInv, TailInv, AllEmpty, Reset, Grown, Linked, Num, Pos;
    if s.ppc.PutBlock? || s.ppc.Construct? { HasTail(c, s, a); }
  }

  lemma HasTail(c: Config, s: State, a: Aux)
    requires Sane(c) && Inv(c, s, a) && (s.ppc.PutBlock? || s.ppc.Construct?)
    ensures s.tailBlock.Some?
  {
    hide Inv;
    KnowProducer(c, s, a);
  }

  /** The producer goes on alone, and is given block b whenever it asks for one. */
  function Alone(n: nat, seesEmpty: bool, b: Block): seq<Act> { seq(n, _ => Produce(seesEmpty, Some(b))) }

  lemma Append(c: Config, acts: seq<Act>, act: Act)
    requires Sane(c)
    ensures Exec(c, acts + [act]) == Next(c, Exec(c, acts), act)
  {
    assert (acts + [act])[..|acts|] == acts;
  }

  lemma {:induction false} Arrives(c: Config, acts: seq<Act>, n: nat, seesEmpty: bool, b: Block)
    requires Sane(c) && Exec(c, acts).ppc != Ready && Distance(Exec(c, acts).ppc) <= n && WillDo(c, Exec(c, acts))
    requires var p := Exec(c, acts).ppc; p.TryReuse? || p.Room? || p.Requisition? ==> b !in Exec(c, acts).next
    ensures Exec(c, acts + Alone(n, seesEmpty, b)).enq == Exec(c, acts).enq + [Exec(c, acts).ppc.v]
    ensures Exec(c, acts + Alone(n, seesEmpty, b)).ppc == Ready
    decreases n
  {
    hide Inv, Next, WillDo, Exec;
    var s, act := Exec(c, acts), Produce(seesEmpty, Some(b));
    var a := ExecInv(c, acts);
    Nearer(c, s, a, seesEmpty, Some(b));
    Append(c, acts, act);
    assert acts + Alone(n, seesEmpty, b) == (acts + [act]) + Alone(n - 1, seesEmpty, b);
    if Exec(c, acts + [act]).ppc == Ready {
      Stays(c, acts + [act], n - 1, seesEmpty, b);
    } else {
      Arrives(c, acts + [act], n - 1, seesEmpty, b);
    }
  }

  lemma {:induction false} Stays(c: Config, acts: seq<Act>, n: nat, seesEmpty: bool, b: Block)
    requires Sane(c) && Exec(c, acts).ppc == Ready
    ensures Exec(c, acts + Alone(n, seesEmpty, b)) == Exec(c, acts)
  {
    if n == 0 {
      assert acts + Alone(0, seesEmpty, b) == acts;
    } else {
      Stays(c, acts, n - 1, seesEmpty, b);
      var act := Produce(seesEmpty, Some(b));
      Append(c, acts + Alone(n - 1, seesEmpty, b), act);
      assert acts + Alone(n, seesEmpty, b) == (acts + Alone(n - 1, seesEmpty, b)) + [act];
    }
  }

  /**
   From every state of every schedule, a call of `enqueue(v)` publishes v within eight steps of the
   producer, if it is inside a block or there is room for another one.
   */
  lemma EnqueuePublishes(c: Config, acts: seq<Act>, v: Value, seesEmpty: bool, b: Block)
    requires Sane(c) && Exec(c, acts).ppc == Ready
    requires |Exec(c, acts).enq| % c.B == 0 ==> !NoBlock(c, Exec(c, acts), Some(b))
    ensures var s' := Exec(c, acts + [Enqueue(v)] + Alone(8, seesEmpty, b));
      s'.enq == Exec(c, acts).enq + [v] && s'.ppc == Ready
  {
    Append(c, acts, Enqueue(v));
    Arrives(c, acts + [Enqueue(v)], 8, seesEmpty, b);
  }

  // ---------- What a claim leads to ----------

  /** How many steps a consumer has ahead of it at most. */
  function Ahead(p: CPc): int {
    match p
    case Away => 0
    case LoadIndex(i, e) => 3 * (e - i) + 3
    case LoadFront(i, e, _) => 3 * (e - i) + 2
    case LoadBase(i, e, _, _) => 3 * (e - i) + 1
    case LoadBlock(i, e, _, _) => 3 * (e - i)
    case Read(i, e, _, _, _, xs) => 3 * (e - i) - 1 - |xs|
    case SetEmpty(_, m, e, _, _, _, xs) => 3 * (e - m) + |xs|
  }

  /** Steps of consumer t. */
  function Turns(acts: seq<Act>, t: Cid): nat {
    if acts == [] then 0
    else
      var last := acts[|acts| - 1];
      Turns(acts[..|acts| - 1], t) + if last.Consume? && last.c == t then 1 else 0
  }

  lemma ConsumerNearer(c: Config, s: State, a: Aux, t: Cid, n: nat)
    requires Sane(c) && Inv(c, s, a) && At(s, t) != Away
    ensures Ahead(At(Consumed(c, s, t, n), t)) < Ahead(At(s, t))
  {
    hide Inv, Num, Slot, BlockEnd;
    var p := PcAt(s.cpc, t);
    KnowConsumer(c, s, a, t);
    if p.Read? {
      ReadNearer(c, s, a, t);
    } else if p.SetEmpty? {
      InBlock(c, p.i, p.e, p.i);
    } else {
      hide View;
      ConsumerMoves(c, s, a, t, n);
    }
  }

  lemma ReadNearer(c: Config, s: State, a: Aux, t: Cid)
    requires Sane(c) && Inv(c, s, a) && At(s, t).Read?
    ensures Ahead(At(Consumed(c, s, t, 0), t)) < Ahead(At(s, t))
  {
    hide Inv, Num;
    var p := PcAt(s.cpc, t);
    KnowConsumer(c, s, a, t);
    ReadNext(c, s, a, t);
    InBlock(c, p.i, p.e, p.i);
  }

  lemma OthersStay(c: Config, s: State, act: Act, t: Cid)
    requires Sane(c) && Shape(s) && !(act.Consume? && act.c == t)
    ensures At(Next(c, s, act), t) == At(s, t)
  {
    hide AllEmpty, Reset, Slot, Taken, Emptied, Sane;
  }

  /** A consumer that has claimed is done after a number of its own steps, whatever the others do. */
  lemma {:induction false} WaitFree(c: Config, acts: seq<Act>, n: nat, m: nat, t: Cid)
    requires Sane(c) && n <= m <= |acts| && forall k | n <= k <= m :: At(Before(c, acts, k), t) != Away
    ensures Turns(acts[n..m], t) + Ahead(At(Before(c, acts, m), t)) <= Ahead(At(Before(c, acts, n), t))
  {
    hide Before, Ahead, At;
    if n == m {
      assert acts[n..m] == [];
    } else {
      WaitFree(c, acts, n, m - 1, t);
      assert acts[n..m][..m - 1 - n] == acts[n..m - 1];
      assert At(Before(c, acts, m - 1), t) != Away;
      AheadStep(c, acts, m - 1, t);
    }
  }

  lemma AheadStep(c: Config, acts: seq<Act>, n: nat, t: Cid)
    requires Sane(c) && n < |acts| && At(Before(c, acts, n), t) != Away
    ensures Ahead(At(Before(c, acts, n + 1), t)) +
      (if acts[n].Consume? && acts[n].c == t then 1 else 0) <= Ahead(At(Before(c, acts, n), t))
  {
    hide Inv, Exec, Next, Ahead, At;
    StepOf(c, acts, n);
    var s, act := Before(c, acts, n), acts[n];
    var a := ExecInv(c, acts[..n]);
    if act.Consume? && act.c == t { ConsumerNearerNext(c, s, a, t, act); } else { OthersStay(c, s, act, t); }
  }

  lemma ConsumerNearerNext(c: Config, s: State, a: Aux, t: Cid, act: Act)
    requires Sane(c) && Inv(c, s, a) && Shape(s) && At(s, t) != Away && act.Consume? && act.c == t
    ensures Ahead(At(Next(c, s, act), t)) < Ahead(At(s, t))
  {
    hide Inv, Ahead, Consumed;
    ConsumerNearer(c, s, a, t, act.n);
  }

  /** A consumer only comes to own elements at the head. */
  lemma OwnsOld(c: Config, s: State, act: Act, a: Aux, t: Cid, i: nat)
    requires Sane(c) && Shape(s) && Inv(c, s, a) && i < s.head && Owns(At(Next(c, s, act), t), i)
    ensures Owns(At(s, t), i)
  {
    hide Inv, Num, Slot;
    if act.Consume? && act.c == t {
      var p := PcAt(s.cpc, t);
      if p != Away { KnowConsumer(c, s, a, t); InBlock(c, p.i, p.e, p.i); }
    } else {
      OthersStay(c, s, act, t);
    }
  }

  /** Element i has been returned, with the value published as element i. */
  ghost predicate Returned(s: State, i: nat) {
    i < |s.enq| && exists k :: 0 <= k < |s.got| && s.got[k] == (i, s.enq[i])
  }

  /** Below the head, an element has been returned, or one consumer has it. */
  lemma ReturnedOrOwned(c: Config, s: State, a: Aux, i: nat)
    requires Sane(c) && Inv(c, s, a) && i < s.head
    ensures Returned(s, i) || exists t :: Owns(At(s, t), i)
    ensures forall t, u | Owns(At(s, t), i) && Owns(At(s, u), i) :: t == u
  {
    hide RingInv, IndexInv, MemInv, Consumers, TailInv, Num, Pos;
    if i in a.done {
      var k :| 0 <= k < |s.got| && s.got[k].0 == i;
      assert s.got[k] == (i, s.enq[i]);
    } else {
      var t :| Owns(PcAt(s.cpc, t), i);
      assert Owns(At(s, t), i);
    }
    forall t, u | Owns(At(s, t), i) && Owns(At(s, u), i) ensures t == u {
      assert Owns(PcAt(s.cpc, t), i) && Owns(PcAt(s.cpc, u), i);
    }
  }

  lemma Grows(c: Config, s: State, act: Act)
    requires Sane(c) && Shape(s)
    ensures var s' := Next(c, s, act); s.enq <= s'.enq && s.got <= s'.got && s.head <= s'.head
  {
    hide Produced, Consumed, Sane;
    match act
    case Enqueue(_) =>
    case Produce(seesEmpty, block) => ProducedGrows(c, s, seesEmpty, block);
    case Consume(t, n) => ConsumedGrows(c, s, t, n);
  }

  lemma ProducedGrows(c: Config, s: State, seesEmpty: bool, block: Option<Block>)
    requires Sane(c) && Shape(s)
    ensures var s' := Produced(c, s, seesEmpty, block);
      s.enq <= s'.enq && s'.got == s.got && s'.head == s.head && s'.cpc == s.cpc
  {
    hide AllEmpty, Reset, Sane, SetLast, Grown;
  }

  lemma ConsumedGrows(c: Config, s: State, t: Cid, n: nat)
    requires Sane(c)
    ensures var s' := Consumed(c, s, t, n); s'.enq == s.enq && s.got <= s'.got && s.head <= s'.head
  {
    hide Slot, Taken, Emptied, Sane;
  }

  /** Everything that was in the oldest block of the ring has been returned. */
  ghost predicate Drained(c: Config, s: State)
    requires Sane(c)
  {
    var first := (|s.enq| / c.B - s.used) * c.B;
    forall i: nat | first <= i < first + c.B :: Returned(s, i)
  }

  lemma ReturnedDone(c: Config, s: State, a: Aux, i: nat)
    requires Sane(c) && Inv(c, s, a)
    ensures Returned(s, i) <==> i in a.done
  {
    hide RingInv, IndexInv, MemInv, Consumers, TailInv, ClaimInv, Num, Pos;
    if i in a.done {
      var k :| 0 <= k < |s.got| && s.got[k].0 == i;
      assert s.got[k] == (i, s.enq[i]);
    }
  }

  /** Element i is in block number n at position j. */
  lemma PlaceIs(c: Config, n: nat, j: nat, i: nat)
    requires Sane(c) && j < c.B && i == n * c.B + j
    ensures Num(c, i) == n && Pos(c, i) == j
  {
    DivIs(i, c.B, n);
    NumPos(c, i, i);
  }

  lemma EmptyDone(c: Config, s: State, a: Aux, n: nat)
    requires Sane(c) && Inv(c, s, a) && |a.blk| - s.used <= n < |a.blk|
    ensures AllEmpty(s.flags, a.blk[n], c.B) <==> forall i: nat | n * c.B <= i < n * c.B + c.B :: i in a.done
  {
    hide RingInv, IndexInv, MemInv, Consumers, TailInv, ClaimInv, ResultInv, Num, Pos;
    forall j | 0 <= j < c.B
      ensures (a.blk[n], j) in s.flags <==> n * c.B + j in a.done
    {
      PlaceIs(c, n, j, n * c.B + j);
    }
    if forall i: nat | n * c.B <= i < n * c.B + c.B :: i in a.done {
      forall j | 0 <= j < c.B ensures (a.blk[n], j) in s.flags { assert n * c.B + j in a.done; }
    } else {
      var i: nat :| n * c.B <= i < n * c.B + c.B && i !in a.done;
      assert (a.blk[n], i - n * c.B) !in s.flags;
    }
  }

  /**
   At the start of a block, the producer takes the oldest block of its ring again if and only if all
   its elements have been returned; it then neither asks for a block nor changes the ring.
   */
  lemma ReusesDrained(c: Config, acts: seq<Act>, block: Option<Block>)
    requires Sane(c) && Exec(c, acts).ppc.TryReuse? && Exec(c, acts).tailBlock.Some?
    ensures var s := Exec(c, acts); var s' := Produced(c, s, true, block);
      && 0 < s.used <= |s.enq| / c.B
      && (Drained(c, s) <==> s'.ppc.PutBase?) && (!Drained(c, s) <==> s'.ppc.Room?)
      && s'.next == s.next && s'.used == s.used && s'.headers == s.headers
      && (Drained(c, s) ==> s.tailBlock.value in s.next && s'.tailBlock == Some(s.next[s.tailBlock.value]))
  {
    hide Exec, Inv, RingInv, TailInv, AllEmpty, Reset, Returned;
    var s := Exec(c, acts);
    var a := ExecInv(c, acts);
    KnowProducer(c, s, a);
    RingEnd(s.next, s.tailBlock, a.blk, s.used);
    RingAt(s.next, s.tailBlock, a.blk, s.used, |a.blk| - 1);
    assert |a.blk| == |s.enq| / c.B by { AtBlock(c, |s.enq|, |a.blk|, s.ppc); }
    EmptyDone(c, s, a, |a.blk| - s.used);
    forall i: nat
      ensures Returned(s, i) <==> i in a.done
    {
      ReturnedDone(c, s, a, i);
    }
  }

  lemma AtBlock(c: Config, T: nat, q: nat, p: PPc)
    requires Sane(c) && TailInv(c, T, q, p) && p.TryReuse?
    ensures q == T / c.B
  {
  }

  // ---------- How many elements may be queued ----------

  /** The producer has a block for the next element, or has had room made for one. */
  predicate InsideBlock(c: Config, s: State)
    requires Sane(c)
  {
    |s.enq| % c.B != 0 || Putting(s.ppc) || s.ppc.Construct? || s.ppc.Publish?
  }

  /** Where the block ends that the producer is in. */
  function Reach(c: Config, s: State): nat
    requires Sane(c)
  {
    if InsideBlock(c, s) then |s.enq| - |s.enq| % c.B + c.B else |s.enq|
  }

  function Max(x: int, y: int): int { if x < y then y else x }

  /** Half the range of the index type, less one, or what the ring holds if that is more. */
  function Allowed(c: Config, used: nat): int
    requires Sane(c)
  {
    Max(c.W / 2 - 1, used * c.B)
  }

  ghost predicate RangeInv(c: Config, s: State)
    requires Sane(c)
  {
    && Reach(c, s) - s.head <= Allowed(c, s.used)
    && (s.ppc.Requisition? ==> |s.enq| + c.B - s.head < c.W / 2)
  }

  lemma NextPos(c: Config, T: nat)
    requires Sane(c)
    ensures (T + 1) % c.B == if T % c.B + 1 == c.B then 0 else T % c.B + 1
  {
    NumSucc(c, T);
    NumPos(c, T, T + 1);
    NumPos(c, T + 1, T);
  }

  lemma AllowedMore(c: Config, used: nat)
    requires Sane(c)
    ensures Allowed(c, used) <= Allowed(c, used + 1)
  {
    assert (used + 1) * c.B == used * c.B + c.B;
  }

  /** When the oldest block is empty, everything still queued is in the others. */
  lemma DrainedHead(c: Config, s: State, a: Aux)
    requires Sane(c) && Inv(c, s, a) && s.ppc.TryReuse? && s.tailBlock.Some? && s.tailBlock.value in s.next
    requires AllEmpty(s.flags, s.next[s.tailBlock.value], c.B)
    ensures |s.enq| % c.B == 0 && |s.enq| + c.B - s.head <= s.used * c.B
  {
    hide Inv, AllEmpty, RingInv, TailInv;
    KnowProducer(c, s, a);
    RingEnd(s.next, s.tailBlock, a.blk, s.used);
    RingAt(s.next, s.tailBlock, a.blk, s.used, |a.blk| - 1);
    AtBlock(c, |s.enq|, |a.blk|, s.ppc);
    AtStart(c, |s.enq|, |a.blk|, s.ppc);
    var n := |a.blk| - s.used;
    EmptyDone(c, s, a, n);
    var i := n * c.B + c.B - 1;
    assert i in a.done;
    DoneBelow(c, s, a, i);
    assert |s.enq| == |a.blk| * c.B by { NumPos(c, |s.enq|, |s.enq|); }
    assert |a.blk| * c.B == n * c.B + s.used * c.B;
  }

  lemma AtStart(c: Config, T: nat, q: nat, p: PPc)
    requires Sane(c) && TailInv(c, T, q, p) && (p.TryReuse? || p.Room? || p.Requisition?)
    ensures T % c.B == 0
  {
  }

  lemma DoneBelow(c: Config, s: State, a: Aux, i: nat)
    requires Sane(c) && Inv(c, s, a) && i in a.done
    ensures i < s.head
  {
    hide RingInv, IndexInv, MemInv, Consumers, TailInv, ClaimInv, ResultInv, Num, Pos;
  }

  lemma RangeProduced(c: Config, s: State, a: Aux, seesEmpty: bool, block: Option<Block>)
    requires Sane(c) && Shape(s) && Inv(c, s, a) && RangeInv(c, s)
    ensures RangeInv(c, Produced(c, s, seesEmpty, block))
  {
    hide Inv, RingInv, TailInv, AllEmpty, Reset, Grown, Linked, Allowed;
    KnowProducer(c, s, a);
    match s.ppc
    case TryReuse(_) =>
      AtStart(c, |s.enq|, |a.blk|, s.ppc);
      if seesEmpty && s.tailBlock.Some? && s.tailBlock.value in s.next &&
         AllEmpty(s.flags, s.next[s.tailBlock.value], c.B) {
        DrainedHead(c, s, a);
        AllowedIs(c, s.used);
      }
    case Room(_) => AtStart(c, |s.enq|, |a.blk|, s.ppc);
    case Requisition(_) =>
      AtStart(c, |s.enq|, |a.blk|, s.ppc);
      AllowedIs(c, s.used);
      AllowedIs(c, s.used + 1);
      AllowedMore(c, s.used);
    case Publish(_) => NextPos(c, |s.enq|);
    case _ =>
  }

  lemma AllowedIs(c: Config, used: nat)
    requires Sane(c)
    ensures Allowed(c, used) >= c.W / 2 - 1 && Allowed(c, used) >= used * c.B
  {
  }

  lemma RangeEnqueue(c: Config, s: State, v: Value)
    requires Sane(c) && Shape(s) && RangeInv(c, s)
    ensures RangeInv(c, Next(c, s, Enqueue(v)))
  {
    hide Allowed;
  }

  lemma RangeConsumed(c: Config, s: State, t: Cid, n: nat)
    requires Sane(c) && RangeInv(c, s)
    ensures RangeInv(c, Consumed(c, s, t, n))
  {
    hide Consumed, Allowed;
    ConsumedHeaders(c, s, t, n);
    ConsumedGrows(c, s, t, n);
  }

  lemma {:induction false} AllInRange(c: Config, acts: seq<Act>)
    requires Sane(c)
    ensures RangeInv(c, Exec(c, acts))
  {
    hide Inv, Produced, Consumed, RangeInv;
    if acts == [] {
      RangeInit(c);
    } else {
      var n := |acts| - 1;
      AllInRange(c, acts[..n]);
      var s := Exec(c, acts[..n]);
      var a := ExecInv(c, acts[..n]);
      match acts[n]
      case Enqueue(v) => RangeEnqueue(c, s, v);
      case Produce(seesEmpty, block) => RangeProduced(c, s, a, seesEmpty, block);
      case Consume(t, m) => RangeConsumed(c, s, t, m);
    }
  }

  lemma RangeInit(c: Config)
    requires Sane(c)
    ensures RangeInv(c, Init(c))
  {
    ModSmall(0, c.B);
    assert c.W / c.B > 0 by { assert c.W == (c.W / c.B) * c.B; }
    MulAtLeast(c.W / c.B, c.B);
  }

  /**
   In every run fewer elements are queued than half the range of the index type, within which the
   comparisons of indices are right, unless the ring has come to hold more: the check is made when
   a block is added to the ring, not when one is used again.
   */
  lemma RangeKept(c: Config, acts: seq<Act>)
    requires Sane(c)
    ensures var s := Exec(c, acts);
      && |s.enq| - s.head <= Max(c.W / 2 - 1, s.used * c.B)
      && (s.ppc.Requisition? ==> |s.enq| + c.B - s.head < c.W / 2)
  {
    hide Exec;
    AllInRange(c, acts);
  }

  /** What the producer's steps leave alone while it needs no block from outside. */
  ghost predicate SameRing(s: State, s': State) {
    s'.used == s.used && s'.head == s.head && s'.got == s.got && s'.cpc == s.cpc && s'.tailBlock.Some?
  }

  predicate HasBlock(p: PPc) { Putting(p) || p.Construct? || p.Publish? }

  lemma BlockStep(c: Config, s: State, a: Aux)
    requires Sane(c) && Shape(s) && Inv(c, s, a) && HasBlock(s.ppc) && s.tailBlock.Some?
    ensures var s' := Next(c, s, Produce(true, None));
      && SameRing(s, s') && Distance(s'.ppc) < Distance(s.ppc)
      && if s'.ppc == Ready then s'.enq == s.enq + [s.ppc.v] else HasBlock(s'.ppc) && s'.enq == s.enq
  {
    hide Inv, SetLast;
  }

  lemma {:induction false} Completes(c: Config, acts: seq<Act>) returns (more: seq<Act>)
    requires Sane(c) && HasBlock(Exec(c, acts).ppc) && Exec(c, acts).tailBlock.Some?
    ensures var s, s' := Exec(c, acts), Exec(c, acts + more);
      s'.ppc == Ready && |s'.enq| == |s.enq| + 1 && SameRing(s, s')
    decreases Distance(Exec(c, acts).ppc)
  {
    hide Inv, Next, Exec;
    var act := Produce(true, None);
    var a := ExecInv(c, acts);
    BlockStep(c, Exec(c, acts), a);
    Append(c, acts, act);
    if Exec(c, acts + [act]).ppc == Ready {
      more := [act];
    } else {
      more := Completes(c, acts + [act]);
      assert acts + ([act] + more) == (acts + [act]) + more;
      more := [act] + more;
    }
  }

  /** One more element, into the block the producer is in or into the oldest one, which is drained. */
  lemma AddsOne(c: Config, acts: seq<Act>) returns (more: seq<Act>)
    requires Sane(c) && Exec(c, acts).ppc == Ready && Exec(c, acts).tailBlock.Some?
    requires |Exec(c, acts).enq| % c.B == 0 ==> Drained(c, Exec(c, acts))
    ensures var s, s' := Exec(c, acts), Exec(c, acts + more);
      s'.ppc == Ready && |s'.enq| == |s.enq| + 1 && SameRing(s, s')
  {
    hide Exec, Produced, Drained;
    var s, e, act := Exec(c, acts), Enqueue(0), Produce(true, None);
    Append(c, acts, e);
    if |s.enq| % c.B != 0 {
      more := Completes(c, acts + [e]);
      assert acts + ([e] + more) == (acts + [e]) + more;
      more := [e] + more;
    } else {
      var m := Exec(c, acts + [e]);
      SameDrained(c, s, m);
      ReusesDrained(c, acts + [e], None);
      Append(c, acts + [e], act);
      Reused(c, m);
      more := Completes(c, acts + [e] + [act]);
      assert acts + ([e, act] + more) == (acts + [e] + [act]) + more;
      more := [e, act] + more;
    }
  }

  lemma SameDrained(c: Config, s: State, s': State)
    requires Sane(c) && s'.enq == s.enq && s'.got == s.got && s'.used == s.used && Drained(c, s)
    ensures Drained(c, s')
  {
    var first := (|s.enq| / c.B - s.used) * c.B;
    forall i: nat | first <= i < first + c.B
      ensures Returned(s', i)
    {
      assert Returned(s, i);
    }
  }

  lemma Reused(c: Config, s: State)
    requires Sane(c) && Shape(s) && s.ppc.TryReuse? && Produced(c, s, true, None).ppc.PutBase?
    ensures SameRing(s, Produced(c, s, true, None)) && Produced(c, s, true, None).enq == s.enq
  {
    hide AllEmpty, Reset;
  }

  /** Nothing is queued, nobody is inside, and the producer is at the end of a block. */
  ghost predicate Quiet(c: Config, s: State)
    requires Sane(c)
  {
    && s.ppc == Ready && s.tailBlock.Some? && |s.enq| % c.B == 0 && s.head == |s.enq|
    && forall t :: At(s, t) == Away
  }

  /** All that was returned by then is enough to use every block of the ring again. */
  lemma StillDrained(c: Config, s: State, s': State, a: Aux)
    requires Sane(c) && Quiet(c, s) && SameRing(s, s') && Inv(c, s', a) && s'.ppc == Ready
    requires |s.enq| <= |s'.enq| < |s.enq| + s.used * c.B && |s'.enq| % c.B == 0
    ensures Drained(c, s')
  {
    hide Inv;
    var first := (|s'.enq| / c.B - s'.used) * c.B;
    assert |s'.enq| == (|s'.enq| / c.B) * c.B;
    assert first == |s'.enq| - s.used * c.B;
    forall i: nat | first <= i < first + c.B
      ensures Returned(s', i)
    {
      FirstBefore(c, |s.enq|, |s'.enq|, s.used);
      ReturnedOrOwned(c, s', a, i);
      forall t ensures !Owns(At(s', t), i) { assert At(s, t) == Away; }
    }
  }

  lemma FirstBefore(c: Config, T: nat, T': nat, used: nat)
    requires Sane(c) && T % c.B == 0 && T' % c.B == 0 && T' < T + used * c.B
    ensures T' - used * c.B + c.B <= T
  {
    var x, y := T / c.B, T' / c.B;
    assert T == x * c.B && T' == y * c.B;
    assert (x + used) * c.B == T + used * c.B;
    assert y < x + used by { if y >= x + used { MulMono(x + used, y, c.B); } }
    if y < x + used - 1 {
      MulAtLeast(x + used - 1 - y, c.B);
      assert (x + used - 1 - y) * c.B == T + used * c.B - c.B - T';
    }
  }

  lemma {:induction false} Fills(c: Config, acts: seq<Act>, n: nat) returns (more: seq<Act>)
    requires Sane(c) && Quiet(c, Exec(c, acts)) && n <= Exec(c, acts).used * c.B
    ensures var s, s' := Exec(c, acts), Exec(c, acts + more);
      s'.ppc == Ready && |s'.enq| == |s.enq| + n && SameRing(s, s')
  {
    hide Exec, Inv, Drained;
    if n == 0 {
      more := [];
      assert acts + more == acts;
    } else {
      var before := Fills(c, acts, n - 1);
      var s := Exec(c, acts + before);
      var a := ExecInv(c, acts + before);
      if |s.enq| % c.B == 0 { StillDrained(c, Exec(c, acts), s, a); }
      more := AddsOne(c, acts + before);
      assert acts + (before + more) == (acts + before) + more;
      more := before + more;
    }
  }

  /**
   And it does exceed half the range when the ring holds that much: from every reachable state in
   which nothing is queued and nobody is inside, at the end of a block, the producer alone can fill
   all the blocks of its ring.
   */
  lemma RangeReached(c: Config, acts: seq<Act>) returns (more: seq<Act>)
    requires Sane(c) && Quiet(c, Exec(c, acts))
    ensures var s, s' := Exec(c, acts), Exec(c, acts + more);
      s'.used == s.used && |s'.enq| - s'.head == s.used * c.B
  {
    hide Exec;
    more := Fills(c, acts, Exec(c, acts).used * c.B);
  }

  /** What a consumer's steps leave alone. */
  ghost predicate SameTail(s: State, s': State, t: Cid) {
    && s'.enq == s.enq && s'.used == s.used && s'.ppc == s.ppc && s'.tailBlock == s.tailBlock
    && forall u | u != t :: At(s', u) == At(s, u)
  }

  lemma ConsumeStep(c: Config, s: State, t: Cid, n: nat)
    requires Sane(c)
    ensures SameTail(s, Consumed(c, s, t, n), t) && (At(s, t) != Away ==> Consumed(c, s, t, n).head == s.head)
  {
    hide Slot, Taken, Emptied, Sane;
  }

  /** A consumer that goes on alone is away in the end. */
  lemma {:induction false} GoesAway(c: Config, acts: seq<Act>, t: Cid) returns (more: seq<Act>)
    requires Sane(c)
    ensures var s, s' := Exec(c, acts), Exec(c, acts + more);
      SameTail(s, s', t) && s'.head == s.head && At(s', t) == Away
    decreases Ahead(At(Exec(c, acts), t))
  {
    hide Inv, Consumed, Exec, Ahead, At;
    if At(Exec(c, acts), t) == Away {
      more := [];
      assert acts + more == acts;
    } else {
      var a := ExecInv(c, acts);
      ConsumerNearer(c, Exec(c, acts), a, t, 0);
      ConsumeStep(c, Exec(c, acts), t, 0);
      AheadSome(c, acts, t);
      Append(c, acts, Consume(t, 0));
      more := GoesAway(c, acts + [Consume(t, 0)], t);
      assert acts + ([Consume(t, 0)] + more) == (acts + [Consume(t, 0)]) + more;
      more := [Consume(t, 0)] + more;
    }
  }

  lemma AheadSome(c: Config, acts: seq<Act>, t: Cid)
    requires Sane(c)
    ensures Ahead(At(Exec(c, acts), t)) >= 0
  {
    hide Exec, Inv, Num, Walk, Shows, Looked;
    var s, p := Exec(c, acts), At(Exec(c, acts), t);
    var a := ExecInv(c, acts);
    if p != Away {
      KnowConsumer(c, s, a, t);
      InBlock(c, p.i, p.e, p.i);
    }
  }

  /** Consumer t takes everything that is queued. */
  lemma TakesAll(c: Config, acts: seq<Act>, t: Cid) returns (more: seq<Act>)
    requires Sane(c) && At(Exec(c, acts), t) == Away && Exec(c, acts).head < |Exec(c, acts).enq|
    ensures var s, s' := Exec(c, acts), Exec(c, acts + more);
      SameTail(s, s', t) && s'.head == |s.enq| && At(s', t) == Away
  {
    hide Exec;
    var s := Exec(c, acts);
    var act := Consume(t, |s.enq| - s.head);
    Append(c, acts, act);
    more := GoesAway(c, acts + [act], t);
    assert acts + ([act] + more) == (acts + [act]) + more;
    more := [act] + more;
  }

  lemma {:induction false} AloneKeeps(c: Config, acts: seq<Act>, n: nat, seesEmpty: bool, b: Block)
    requires Sane(c)
    ensures var s, s' := Exec(c, acts), Exec(c, acts + Alone(n, seesEmpty, b)); s'.head == s.head && s'.cpc == s.cpc
  {
    hide Exec, Produced;
    if n == 0 {
      assert acts + Alone(0, seesEmpty, b) == acts;
    } else {
      AloneKeeps(c, acts, n - 1, seesEmpty, b);
      var before, act := acts + Alone(n - 1, seesEmpty, b), Produce(seesEmpty, Some(b));
      assert acts + Alone(n, seesEmpty, b) == before + [act];
      Append(c, before, act);
      ProducedGrows(c, Exec(c, before), seesEmpty, Some(b));
    }
  }

  /** How the ring stands to the elements between two calls, inside a block. */
  lemma RingSize(c: Config, acts: seq<Act>)
    requires Sane(c) && Exec(c, acts).ppc == Ready && |Exec(c, acts).enq| % c.B != 0
    ensures var s := Exec(c, acts);
      && s.tailBlock.Some? && 0 < s.used <= |s.enq| / c.B + 1
      && forall t, i: nat | Owns(At(s, t), i) :: i / c.B >= |s.enq| / c.B + 1 - s.used
  {
    hide Exec;
    var s := Exec(c, acts);
    var a := ExecInv(c, acts);
    forall t, i: nat | Owns(At(s, t), i)
      ensures i / c.B >= |s.enq| / c.B + 1 - s.used
    {
      OwnedInRing(c, s, a, t, i);
    }
    hide Consumers, IndexInv, MemInv, ClaimInv, ResultInv, DoneInv;
  }

  lemma OwnedInRing(c: Config, s: State, a: Aux, t: Cid, i: nat)
    requires Sane(c) && Inv(c, s, a) && s.ppc == Ready && |s.enq| % c.B != 0 && Owns(At(s, t), i)
    ensures i / c.B >= |s.enq| / c.B + 1 - s.used
  {
    assert ConsumerOk(c, PcAt(s.cpc, t), t, s.head, s.enq, s.headers, a);
    hide Consumers, IndexInv, MemInv, ClaimInv, ResultInv, RingInv, View;
    assert i !in a.done;
    assert !(Num(c, i) < |a.blk| - s.used);
  }

  lemma {:induction false} Unlisted(x: set<Block>) returns (b: Block)
    ensures forall y | y in x :: y < b
  {
    b := 0;
    if x != {} {
      var y :| y in x;
      b := Unlisted(x - {y});
      assert x == (x - {y}) + {y};
      if b <= y { b := y + 1; }
    }
  }

  /** One more element, with a new block if there must be one. */
  lemma AddsAnother(c: Config, acts: seq<Act>) returns (more: seq<Act>)
    requires Sane(c) && Exec(c, acts).ppc == Ready && HasRoom(c, Exec(c, acts))
    ensures var s, s' := Exec(c, acts), Exec(c, acts + more);
      s'.ppc == Ready && |s'.enq| == |s.enq| + 1 && s'.head == s.head && s'.cpc == s.cpc
  {
    hide Exec, HasRoom;
    var s, e := Exec(c, acts), Enqueue(0);
    var b := Unlisted(s.next.Keys);
    EnqueuePublishes(c, acts, 0, true, b);
    Append(c, acts, e);
    AloneKeeps(c, acts + [e], 8, true, b);
    more := [e] + Alone(8, true, b);
    assert acts + more == acts + [e] + Alone(8, true, b);
  }

  /** Blocks of two, and indices modulo eight. */
  const NARROW := Config(2, 8, 2)

  lemma OneBlock() returns (acts: seq<Act>)
    ensures Sane(NARROW)
    ensures var s := Exec(NARROW, acts);
      s.ppc == Ready && |s.enq| == 2 && s.used == 1 && s.head == 0 && s.tailBlock.Some? && s.cpc == map[]
  {
    var c := NARROW;
    var none: seq<Act> := [];
    acts := AddsAnother(c, none);
    assert none + acts == acts;
    hide Exec;
    RingSize(c, acts);
    var more := AddsOne(c, acts);
    acts := acts + more;
  }

  /** A consumer has claimed both elements and not read them. */
  lemma BothClaimed() returns (acts: seq<Act>)
    ensures Sane(NARROW)
    ensures var s := Exec(NARROW, acts);
      && s.ppc == Ready && |s.enq| == 2 && s.used == 1 && s.head == 2 && s.tailBlock.Some?
      && s.cpc == map[0 := LoadIndex(0, 2)]
  {
    hide Exec;
    acts := OneBlock();
    Append(NARROW, acts, Consume(0, 2));
    acts := acts + [Consume(0, 2)];
  }

  lemma TwoBlocks() returns (acts: seq<Act>)
    ensures Sane(NARROW)
    ensures var s := Exec(NARROW, acts);
      && s.ppc == Ready && |s.enq| == 4 && s.used == 2 && s.head == 2 && s.tailBlock.Some?
      && s.cpc == map[0 := LoadIndex(0, 2)]
  {
    hide Exec;
    var c := NARROW;
    acts := BothClaimed();
    OneBlockRoom(c, acts);
    var more := AddsAnother(c, acts);
    acts := acts + more;
    RingSize(c, acts);
    assert Owns(At(Exec(c, acts), 0), 0);
    more := AddsOne(c, acts);
    acts := acts + more;
  }

  lemma OneBlockRoom(c: Config, acts: seq<Act>)
    requires c == NARROW && Exec(c, acts).used == 1 && |Exec(c, acts).enq| == Exec(c, acts).head
    ensures HasRoom(c, Exec(c, acts))
  {
    hide Exec, Inv;
    var s := Exec(c, acts);
    var a := ExecInv(c, acts);
    SizeDivides(c, s, a);
  }

  lemma SizeDivides(c: Config, s: State, a: Aux)
    requires Sane(c) && Inv(c, s, a)
    ensures Last(s).size > 0 && (c.W / c.B) % Last(s).size == 0
  {
    hide RingInv, TailInv, DoneInv, MemInv, ClaimInv, ResultInv, Consumers;
  }

  /** The check does not keep the queue within half the range: a run that fills a ring of two blocks. */
  lemma RangeExceeded() returns (acts: seq<Act>)
    ensures Sane(NARROW)
    ensures var s := Exec(NARROW, acts); |s.enq| - s.head == NARROW.W / 2
  {
    hide Exec;
    var c := NARROW;
    acts := TwoBlocks();
    var more := GoesAway(c, acts, 0);
    acts := acts + more;
    more := TakesAll(c, acts, 0);
    acts := acts + more;
    more := RangeReached(c, acts);
    acts := acts + more;
  }

  /** Step j of the schedule is a claim of n elements by consumer t. */
  ghost predicate Claims(c: Config, acts: seq<Act>, j: nat, t: Cid, n: nat)
    requires Sane(c)
  {
    && j < |acts| && acts[j] == Consume(t, n) && At(Before(c, acts, j), t) == Away
    && 0 < n && Before(c, acts, j).head + n <= |Before(c, acts, j).enq|
  }

  lemma {:induction false} ClaimKept(c: Config, acts: seq<Act>, j: nat, t: Cid, n: nat, m: nat, i: nat)
    requires Sane(c) && Claims(c, acts, j, t, n) && j < m <= |acts|
    requires Before(c, acts, j).head <= i < Before(c, acts, j).head + n
    ensures i < Before(c, acts, m).head
    ensures Returned(Before(c, acts, m), i) || Owns(At(Before(c, acts, m), t), i)
    decreases m
  {
    hide Before, Claims;
    if m == j + 1 {
      ClaimBegins(c, acts, j, t, n, i);
    } else {
      ClaimKept(c, acts, j, t, n, m - 1, i);
      ClaimStep(c, acts, m - 1, t, i);
    }
  }

  lemma ClaimBegins(c: Config, acts: seq<Act>, j: nat, t: Cid, n: nat, i: nat)
    requires Sane(c) && Claims(c, acts, j, t, n) && Before(c, acts, j).head <= i < Before(c, acts, j).head + n
    ensures i < Before(c, acts, j + 1).head && Owns(At(Before(c, acts, j + 1), t), i)
  {
    hide Exec;
    StepOf(c, acts, j);
  }

  lemma ClaimStep(c: Config, acts: seq<Act>, m: nat, t: Cid, i: nat)
    requires Sane(c) && m < |acts| && i < Before(c, acts, m).head
    requires Returned(Before(c, acts, m), i) || Owns(At(Before(c, acts, m), t), i)
    ensures i < Before(c, acts, m + 1).head
    ensures Returned(Before(c, acts, m + 1), i) || Owns(At(Before(c, acts, m + 1), t), i)
  {
    hide Inv, Exec, Next, Owns;
    StepOf(c, acts, m);
    var s, s', act := Before(c, acts, m), Before(c, acts, m + 1), acts[m];
    var a := ExecInv(c, acts[..m]);
    var a' := ExecInv(c, acts[..m + 1]);
    Grows(c, s, act);
    if !Returned(s, i) {
      ReturnedOrOwned(c, s', a', i);
      ReturnedOrOwned(c, s, a, i);
      if !Returned(s', i) {
        var u :| Owns(At(s', u), i);
        OwnsOld(c, s, act, a, u, i);
      }
    }
  }

  /**
   In every schedule, a consumer that claims while elements are there gets them: by the time it is
   away again, each of the n elements from the head on has been returned with its value.
   */
  lemma ClaimDelivers(c: Config, acts: seq<Act>, j: nat, t: Cid, n: nat, m: nat, i: nat)
    requires Sane(c) && Claims(c, acts, j, t, n) && j < m <= |acts| && At(Before(c, acts, m), t) == Away
    requires Before(c, acts, j).head <= i < Before(c, acts, j).head + n
    ensures Returned(Before(c, acts, m), i)
  {
    hide Before, Claims;
    ClaimKept(c, acts, j, t, n, m, i);
  }

  lemma NextSizes(c: Config, s: State, act: Act)
    requires Sane(c) && Shape(s)
    ensures var s' := Next(c, s, act);
      && |s.headers| <= |s'.headers|
      && (forall h | 0 <= h < |s.headers| :: s'.headers[h].size == s.headers[h].size)
      && (forall h | |s.headers| <= h < |s'.headers| :: s'.headers[h].size == 2 * Last(s).size)
  {
    hide Produced, Consumed, Sane;
    match act
    case Enqueue(_) =>
    case Produce(seesEmpty, block) => ProducedSizes(c, s, seesEmpty, block);
    case Consume(t, n) => ConsumedHeaders(c, s, t, n);
  }

  lemma ProducedSizes(c: Config, s: State, seesEmpty: bool, block: Option<Block>)
    requires Sane(c) && Shape(s)
    ensures var s' := Produced(c, s, seesEmpty, block);
      && |s.headers| <= |s'.headers|
      && (forall h | 0 <= h < |s.headers| :: s'.headers[h].size == s.headers[h].size)
      && (forall h | |s.headers| <= h < |s'.headers| :: s'.headers[h].size == 2 * Last(s).size)
  {
    hide AllEmpty, Reset, Sane, Linked;
  }

  lemma ConsumedHeaders(c: Config, s: State, t: Cid, n: nat)
    requires Sane(c)
    ensures var s' := Consumed(c, s, t, n); s'.headers == s.headers && s'.ppc == s.ppc && s'.used == s.used
  {
    hide Slot, BlockEnd, Sane;
  }

  /** Index sizes stay powers of two, so that masking with size - 1 is the remainder taken here. */
  lemma {:induction false} SizesPow2(c: Config, acts: seq<Act>)
    requires Sane(c) && PowerOfTwo.IsPow2(c.size0)
    ensures forall h | 0 <= h < |Exec(c, acts).headers| :: PowerOfTwo.IsPow2(Exec(c, acts).headers[h].size)
  {
    hide Next, PowerOfTwo.IsPow2, Sane;
    if acts != [] {
      var n := |acts| - 1;
      SizesPow2(c, acts[..n]);
      NextSizes(c, Exec(c, acts[..n]), acts[n]);
      PowerOfTwo.Pow2Doubles(Last(Exec(c, acts[..n])).size);
    }
  }

  /** A consumer resolves each number it has claimed to the slot that holds that element. */
  lemma ResolvesToOwnElement(c: Config, acts: seq<Act>, t: Cid)
    requires Sane(c) && At(Exec(c, acts), t).Read?
    ensures var s, p := Exec(c, acts), At(Exec(c, acts), t);
      var j := p.i + |p.xs|;
      j < |s.enq| && (p.b, j % c.B) in s.mem && s.mem[(p.b, j % c.B)] == s.enq[j]
  {
    hide Inv, Exec, Num;
    var a := ExecInv(c, acts);
    ReadNext(c, Exec(c, acts), a, t);
  }

  /** A bulk dequeue hands out the elements of each block in the order they were enqueued. */
  lemma ReadInOrder(c: Config, acts: seq<Act>, t: Cid)
    requires Sane(c) && (At(Exec(c, acts), t).Read? || At(Exec(c, acts), t).SetEmpty?)
    ensures var s, p := Exec(c, acts), At(Exec(c, acts), t);
      p.i + |p.xs| <= |s.enq| && p.xs == s.enq[p.i..p.i + |p.xs|]
  {
    hide Inv, Exec, BlockEnd, Walk, Num;
    var a := ExecInv(c, acts);
    KnowConsumer(c, Exec(c, acts), a, t);
  }

  /** The assertions in set_empty and set_many_empty: the flag a consumer sets was clear. */
  lemma EmptyFlagWasClear(c: Config, acts: seq<Act>, t: Cid)
    requires Sane(c) && At(Exec(c, acts), t).SetEmpty?
    ensures var p := At(Exec(c, acts), t); p.xs != [] && (p.b, (p.i + |p.xs| - 1) % c.B) !in Exec(c, acts).flags
  {
    hide Inv, Exec, ConsumerOk, Num, Emptied;
    var s, p := Exec(c, acts), At(Exec(c, acts), t);
    var a := ExecInv(c, acts);
    LastOwned(c, s, a, t);
    DoneAdds(c, s, a, p.i + |p.xs| - 1, p.b);
  }

  lemma SlotUnread(c: Config, s: State, a: Aux, t: Cid)
    requires Sane(c) && Inv(c, s, a) && Putting(s.ppc) && (At(s, t).LoadBase? || At(s, t).LoadBlock?)
    requires At(s, t).h == |s.headers| - 1
    ensures At(s, t).LoadBase? ==> At(s, t).f != s.front
    ensures At(s, t).LoadBlock? ==> At(s, t).k != s.front
  {
    hide Inv, Num, SlotOf, Looked, Walk, SameBut;
    var p, m := PcAt(s.cpc, t), |s.headers| - 1;
    KnowPut(c, s, a, t);
    NumUp(c, p.i, p.e - 1);
    SameSame(Last(s), s.front);
    if p.LoadBase? {
      PutLooked(c, Last(s), Last(s), a.off[m], a.vis[m], a.blk, Num(c, p.i), Num(c, p.e - 1), NumberAt(a.cp, t), p.f);
    } else {
      PutWalk(Last(s), Last(s), a.off[m], a.vis[m], a.blk, Num(c, p.i), Num(c, p.e - 1));
    }
  }

  lemma SameSame(h: Header, f: int)
    ensures SameBut(h, h, f)
  {
  }

  /** While the producer writes an entry, no consumer is about to read that entry. */
  lemma WrittenSlotUnread(c: Config, acts: seq<Act>, t: Cid)
    requires Sane(c) && Putting(Exec(c, acts).ppc)
    requires At(Exec(c, acts), t).LoadBase? || At(Exec(c, acts), t).LoadBlock?
    requires At(Exec(c, acts), t).h == |Exec(c, acts).headers| - 1
    ensures At(Exec(c, acts), t).LoadBase? ==> At(Exec(c, acts), t).f != Exec(c, acts).front
    ensures At(Exec(c, acts), t).LoadBlock? ==> At(Exec(c, acts), t).k != Exec(c, acts).front
  {
    hide Inv, Exec;
    var a := ExecInv(c, acts);
    SlotUnread(c, Exec(c, acts), a, t);
  }

  /** No lookup ever fails: a consumer that has claimed elements and the producer inside `enqueue` always move on. */
  lemma NeverStuck(c: Config, acts: seq<Act>, t: Cid, n: nat, seesEmpty: bool, block: Option<Block>)
    requires Sane(c)
    ensures At(Exec(c, acts), t) != Away ==> At(Consumed(c, Exec(c, acts), t, n), t) != At(Exec(c, acts), t)
    ensures Exec(c, acts).ppc != Ready ==> Produced(c, Exec(c, acts), seesEmpty, block).ppc != Exec(c, acts).ppc
  {
    hide Exec, Inv, RingInv, Num, Slot, BlockEnd, ConsumerOk;
    var s := Exec(c, acts);
    var a := ExecInv(c, acts);
    KnowProducer(c, s, a);
    if At(s, t) != Away { ConsumerMoves(c, s, a, t, n); }
  }

  lemma ConsumerMoves(c: Config, s: State, a: Aux, t: Cid, n: nat)
    requires Sane(c) && Inv(c, s, a) && At(s, t) != Away
    ensures At(Consumed(c, s, t, n), t) != At(s, t)
  {
    hide Inv, Num, Slot, BlockEnd, Walk, Shows, Looked;
    var p := PcAt(s.cpc, t);
    if p.Read? {
      ReadNext(c, s, a, t);
    } else {
      KnowLookup(c, s, a, t);
    }
  }

  /** What a consumer needs to look at is there. */
  lemma KnowLookup(c: Config, s: State, a: Aux, t: Cid)
    requires Sane(c) && Inv(c, s, a) && At(s, t) != Away
    ensures var p := At(s, t);
      && s.headers != [] && (Looking(p) ==> p.h < |s.headers| && s.headers[p.h].size > 0)
      && (p.LoadBase? ==> 0 <= p.f < |s.headers[p.h].base|)
      && (p.LoadBlock? ==> 0 <= p.k < |s.headers[p.h].block|)
      && (p.SetEmpty? ==> p.xs != [])
  {
    hide Inv, Num, BlockEnd;
    KnowConsumer(c, s, a, t);
    KnowProducer(c, s, a);
  }
}
