/**
 An implicit producer of ConcurrentQueue: one thread enqueues into blocks it requisitions
 one at a time, finds them again through a circular index of entries that doubled indices
 share, and gives a block back as soon as the last of its elements has been dequeued.
 Any number of dequeuers work at once; each is identified by the element it claimed.

 As for the explicit producer, element numbers are exact, what the index stores are their
 values modulo W, and claiming an element is one step.
 */
module ImplicitProducer {
  import opened Wrappers
  import opened ModArith
  import E = ExplicitProducer
  import PowerOfTwo

  type Block = nat
  type Value = int
  type Config = E.Config

  /** No block starts at an odd element. */
  const INVALID: int := 1

  datatype Entry = Entry(key: int, value: Option<Block>)

  /** `BlockIndexHeader`: slots point to entries. */
  datatype Header = Header(cap: nat, tail: nat, slots: seq<nat>)

  /** Where the producer is inside `enqueue(v)`; e is the entry of the block being added. */
  datatype PPc =
    | Ready
    | Room(v: Value)                         // load headIndex, check the leeway
    | Insert(v: Value)                       // is the slot behind the tail free?
    | Grow(v: Value)                         // new_block_index
    | PutKey(v: Value, e: nat)
    | PutTail(v: Value, e: nat)
    | Take(v: Value, e: nat)                 // requisition_block
    | Rewind(v: Value, e: nat)               // there is none: take the tail back
    | Clear(v: Value, e: nat)                // and store a null block
    | Reset(v: Value, e: nat, b: Block)      // reset_empty
    | PutValue(v: Value, e: nat, b: Block)
    | Construct(v: Value)
    | Publish(v: Value)

  /** Where the dequeuer of an element is. */
  datatype CPc =
    | LoadIndex
    | LoadTail(h: nat)
    | LoadKey(h: nat, t: nat)
    | LoadValue(e: nat)
    | Read(e: nat, b: Block)
    | Count(e: nat, b: Block, x: Value)      // set_empty
    | Null(e: nat, b: Block, x: Value)       // it was the last: take the block out of the index
    | Give(b: Block, x: Value)               // and add it to the free list
    | Done(x: Value, last: bool)

  /** The producer's own state. */
  datatype Prod = Prod(
    vals: seq<Value>,                        // elements published; tailIndex is its length
    deq: seq<CPc>,                           // the dequeuers; headIndex is its length
    tailBlock: Option<Block>,
    headers: seq<Header>,                    // blockIndex points to the last
    entries: seq<Entry>,
    ppc: PPc)

  /** The storage of all blocks: elementsCompletelyDequeued and the elements. */
  datatype Mem = Mem(count: map<Block, nat>, data: map<(Block, nat), Value>)

  function Blank(n: nat): seq<Entry> { seq(n, _ => Entry(INVALID, None)) }

  function Init(c: Config): Prod
    requires c.size0 > 0
  {
    Prod([], [], None, [Header(c.size0, c.size0 - 1, seq(c.size0, i => i))], Blank(c.size0), Ready)
  }

  predicate Shape(p: Prod) {
    p.headers != [] && forall h | 0 <= h < |p.headers| ::
      var H := p.headers[h];
      H.tail < H.cap == |H.slots| && forall s | 0 <= s < H.cap :: H.slots[s] < |p.entries|
  }

  function Last(p: Prod): Header
    requires p.headers != []
  {
    p.headers[|p.headers| - 1]
  }

  function SetTail(p: Prod, t: nat): seq<Header>
    requires p.headers != []
  {
    p.headers[|p.headers| - 1 := Last(p).(tail := t)]
  }

  function SetEntry(p: Prod, e: nat, x: Entry): seq<Entry> { if e < |p.entries| then p.entries[e := x] else p.entries }

  /** new_block_index: the old slots, oldest first, and as many new entries. */
  function Grown(H: Header, n: nat): Header
    requires 0 < H.cap == |H.slots|
  {
    Header(2 * H.cap, H.cap - 1,
           seq(2 * H.cap, j requires 0 <= j < 2 * H.cap =>
             if j < H.cap then H.slots[(H.tail + 1 + j) % H.cap] else n + j - H.cap))
  }

  function Begin(c: Config, p: Prod, v: Value): Prod
    requires E.Sane(c)
  {
    if p.ppc != Ready then p else p.(ppc := if |p.vals| % c.B == 0 then Room(v) else Construct(v))
  }

  /** The producer's next step; ok: an index can be allocated, block: what requisition_block returns. */
  function Produced(c: Config, p: Prod, m: Mem, ok: bool, block: Option<Block>): (Prod, Mem)
    requires E.Sane(c) && Shape(p)
  {
    var T, L := |p.vals|, Last(p);
    match p.ppc
    case Ready => (p, m)
    case Room(v) => (p.(ppc := if T + c.B - |p.deq| >= c.W / 2 then Ready else Insert(v)), m)
    case Insert(v) =>
      var e := L.slots[(L.tail + 1) % L.cap];
      var free := p.entries[e].key == INVALID || p.entries[e].value.None?;
      (p.(ppc := if free then PutKey(v, e) else Grow(v)), m)
    case Grow(v) =>
      if !ok || (c.W / c.B) % (2 * L.cap) != 0 then (p.(ppc := Ready), m)
      else
        var H := Grown(L, |p.entries|);
        (p.(headers := p.headers + [H], entries := p.entries + Blank(L.cap), ppc := PutKey(v, |p.entries|)), m)
    case PutKey(v, e) =>
      if e >= |p.entries| then (p, m)
      else (p.(entries := SetEntry(p, e, p.entries[e].(key := T % c.W)), ppc := PutTail(v, e)), m)
    case PutTail(v, e) => (p.(headers := SetTail(p, (L.tail + 1) % L.cap), ppc := Take(v, e)), m)
    case Take(v, e) => (p.(ppc := if block.None? then Rewind(v, e) else Reset(v, e, block.value)), m)
    case Rewind(v, e) => (p.(headers := SetTail(p, (L.tail - 1) % L.cap), ppc := Clear(v, e)), m)
    case Clear(v, e) =>
      if e >= |p.entries| then (p, m)
      else (p.(entries := SetEntry(p, e, p.entries[e].(value := None)), ppc := Ready), m)
    case Reset(v, e, b) => (p.(ppc := PutValue(v, e, b)), m.(count := m.count[b := 0]))
    case PutValue(v, e, b) =>
      if e >= |p.entries| then (p, m)
      else (p.(entries := SetEntry(p, e, p.entries[e].(value := Some(b))), tailBlock := Some(b), ppc := Construct(v)),
        m)
    case Construct(v) =>
      if p.tailBlock.None? then (p, m)
      else (p.(ppc := Publish(v)), m.(data := m.data[(p.tailBlock.value, T % c.B) := v]))
    case Publish(v) => (p.(vals := p.vals + [v], ppc := Ready), m)
  }

  function Claim(p: Prod): Prod { if |p.deq| < |p.vals| then p.(deq := p.deq + [LoadIndex]) else p }

  function Goto(p: Prod, i: nat, pc: CPc): Prod
    requires i < |p.deq|
  {
    p.(deq := p.deq[i := pc])
  }

  /** The next step of the dequeuer of element i. */
  function Consumed(c: Config, p: Prod, m: Mem, i: nat): (Prod, Mem)
    requires E.Sane(c) && Shape(p)
  {
    if i >= |p.deq| then (p, m)
    else
      match p.deq[i]
      case LoadIndex => (Goto(p, i, LoadTail(|p.headers| - 1)), m)
      case LoadTail(h) => if h >= |p.headers| then (p, m) else (Goto(p, i, LoadKey(h, p.headers[h].tail)), m)
      case LoadKey(h, t) =>
        if h >= |p.headers| || t >= p.headers[h].cap then (p, m)
        else
          var H := p.headers[h];
          var s := E.Slot(c, H.cap, t, i, p.entries[H.slots[t]].key);
          (Goto(p, i, LoadValue(H.slots[s])), m)
      case LoadValue(e) =>
        if e >= |p.entries| || p.entries[e].value.None? then (p, m)   // a null block: nothing sensible can follow
        else (Goto(p, i, Read(e, p.entries[e].value.value)), m)
      case Read(e, b) =>
        if (b, i % c.B) !in m.data then (p, m) else (Goto(p, i, Count(e, b, m.data[(b, i % c.B)])), m)
      case Count(e, b, x) =>
        if b !in m.count then (p, m)
        else (Goto(p, i, if m.count[b] == c.B - 1 then Null(e, b, x) else Done(x, false)),
          m.(count := m.count[b := m.count[b] + 1]))
      case Null(e, b, x) =>
        if e >= |p.entries| then (p, m)
        else (Goto(p, i, Give(b, x)).(entries := SetEntry(p, e, p.entries[e].(value := None))), m)
      case Give(b, x) => (Goto(p, i, Done(x, true)), m)
      case Done(_, _) => (p, m)
  }

  ghost predicate CapsPow2(p: Prod) { forall h | 0 <= h < |p.headers| :: PowerOfTwo.IsPow2(p.headers[h].cap) }

  lemma ProducedCaps(c: Config, p: Prod, m: Mem, ok: bool, block: Option<Block>)
    requires E.Sane(c) && Shape(p)
    ensures var p' := Produced(c, p, m, ok, block).0;
            && |p.headers| <= |p'.headers|
            && (forall h | 0 <= h < |p.headers| :: p'.headers[h].cap == p.headers[h].cap)
            && forall h | |p.headers| <= h < |p'.headers| :: p'.headers[h].cap == 2 * Last(p).cap
  {
    hide E.Sane;
  }

  /** Capacities stay powers of two, so that masking with capacity - 1 is the remainder taken here. */
  lemma KeepCaps(c: Config, p: Prod, m: Mem, ok: bool, block: Option<Block>, i: nat)
    requires E.Sane(c) && Shape(p) && CapsPow2(p)
    ensures CapsPow2(Produced(c, p, m, ok, block).0) && CapsPow2(Consumed(c, p, m, i).0)
  {
    hide Produced, PowerOfTwo.IsPow2, E.Slot, E.Sane;
    ProducedCaps(c, p, m, ok, block);
    PowerOfTwo.Pow2Doubles(Last(p).cap);
  }

  // ---------------------------------------------------------------- counting dequeuers

  function Past(q: CPc): bool { q.Null? || q.Give? || q.Done? }                      // has counted its element

  function Closing(q: CPc): bool { q.Null? || q.Give? || (q.Done? && q.last) }       // and saw that it was the last

  function Unlisted(q: CPc): bool { q.Give? || (q.Done? && q.last) }                 // and unlisted the block

  function Returned(q: CPc): bool { q.Done? && q.last }                              // and gave it back

  /** How many of the dequeuers of elements [lo, hi) satisfy f. */
  ghost function Tally(deq: seq<CPc>, lo: int, hi: int, f: CPc -> bool): nat
    requires lo >= 0
    decreases hi - lo
  {
    if hi <= lo then 0 else Tally(deq, lo, hi - 1, f) + (if hi - 1 < |deq| && f(deq[hi - 1]) then 1 else 0)
  }

  lemma {:induction false} TallyUpdate(deq: seq<CPc>, lo: int, hi: int, f: CPc -> bool, i: nat, q: CPc)
    requires lo >= 0 && i < |deq|
    ensures Tally(deq[i := q], lo, hi, f) ==
            Tally(deq, lo, hi, f) + (if lo <= i < hi then (if f(q) then 1 else 0) - (if f(deq[i]) then 1 else 0) else 0)
    decreases hi - lo
  {
    if hi > lo { TallyUpdate(deq, lo, hi - 1, f, i, q); }
  }

  lemma {:induction false} TallyPush(deq: seq<CPc>, lo: int, hi: int, f: CPc -> bool, q: CPc)
    requires lo >= 0 && !f(q)
    ensures Tally(deq + [q], lo, hi, f) == Tally(deq, lo, hi, f)
    decreases hi - lo
  {
    if hi > lo { TallyPush(deq, lo, hi - 1, f, q); }
  }

  lemma {:induction false} TallyMiss(deq: seq<CPc>, lo: int, hi: int, f: CPc -> bool, i: nat)
    requires 0 <= lo <= hi
    ensures Tally(deq, lo, hi, f) <= hi - lo
    ensures lo <= i < hi && (i >= |deq| || !f(deq[i])) ==> Tally(deq, lo, hi, f) < hi - lo
    decreases hi - lo
  {
    if hi > lo { TallyMiss(deq, lo, hi - 1, f, i); }
  }

  lemma {:induction false} TallyNone(deq: seq<CPc>, lo: int, hi: int, f: CPc -> bool)
    requires 0 <= lo <= hi
    ensures Tally(deq, lo, hi, f) == 0 <==> forall i | lo <= i < hi && i < |deq| :: !f(deq[i])
    decreases hi - lo
  {
    if hi > lo { TallyNone(deq, lo, hi - 1, f); }
  }

  lemma {:induction false} TallyLess(deq: seq<CPc>, lo: int, hi: int, f: CPc -> bool, g: CPc -> bool)
    requires lo >= 0 && forall q :: f(q) ==> g(q)
    ensures Tally(deq, lo, hi, f) <= Tally(deq, lo, hi, g)
    decreases hi - lo
  {
    if hi > lo { TallyLess(deq, lo, hi - 1, f, g); }
  }

  /** Over the elements of the k-th block. */
  ghost function In(c: Config, deq: seq<CPc>, k: nat, f: CPc -> bool): nat { Tally(deq, k * c.B, k * c.B + c.B, f) }

  ghost predicate Live(c: Config, deq: seq<CPc>, k: nat) { In(c, deq, k, Unlisted) == 0 }

  ghost predicate Owned(c: Config, deq: seq<CPc>, k: nat) { In(c, deq, k, Returned) == 0 }

  lemma InRange(c: Config, i: nat, k: nat)
    requires E.Sane(c)
    ensures k * c.B <= i < k * c.B + c.B <==> E.Num(c, i) == k
  {
    E.NumPos(c, i, i);
    var n := E.Num(c, i);
    if n > k { MulAtLeast(n - k, c.B); assert (n - k) * c.B == n * c.B - k * c.B; }
    if n < k { MulAtLeast(k - n, c.B); assert (k - n) * c.B == k * c.B - n * c.B; }
  }

  lemma InUpdate(c: Config, deq: seq<CPc>, k: nat, f: CPc -> bool, i: nat, q: CPc)
    requires E.Sane(c) && i < |deq|
    ensures In(c, deq[i := q], k, f) ==
            In(c, deq, k, f) + (if E.Num(c, i) == k then (if f(q) then 1 else 0) - (if f(deq[i]) then 1 else 0) else 0)
  {
    TallyUpdate(deq, k * c.B, k * c.B + c.B, f, i, q);
    InRange(c, i, k);
  }

  lemma LiveOwned(c: Config, deq: seq<CPc>, k: nat)
    ensures Live(c, deq, k) ==> Owned(c, deq, k)
  {
    TallyLess(deq, k * c.B, k * c.B + c.B, Returned, Unlisted);
  }

  // ---------------------------------------------------------------- invariant

  /**
   fills: the block that got each number; ents: its entry, one more than fills from the
   moment the next number's key is stored; views: what the slots of each index stand for;
   seen: the number whose key a dequeuer is going to load.
   */
  datatype Aux = Aux(fills: seq<Block>, ents: seq<nat>, views: seq<View>, seen: map<nat, nat>)

  /** An index's slot offset, the first number it took over, and how many numbers its tail shows. */
  datatype View = View(off: int, low: nat, vis: nat)

  function LastView(a: Aux): View
    requires a.views != []
  {
    a.views[|a.views| - 1]
  }

  predicate Adding(p: PPc) { p.Take? || p.Rewind? || p.Reset? || p.PutValue? }       // the tail shows the next number

  predicate Keyed(p: PPc) { Adding(p) || p.PutTail? || p.Clear? }

  ghost predicate TailInv(c: Config, T: nat, n: nat, p: PPc)
    requires E.Sane(c)
  {
    match p
    case Ready => (E.Num(c, T) == n && E.Pos(c, T) == 0) || (E.Num(c, T) + 1 == n && E.Pos(c, T) != 0)
    case Construct(_) => E.Num(c, T) + 1 == n
    case Publish(_) => E.Num(c, T) + 1 == n
    case _ => E.Num(c, T) == n && E.Pos(c, T) == 0
  }

  ghost predicate TailBlockInv(b: Option<Block>, fills: seq<Block>) {
    b == if fills == [] then None else Some(fills[|fills| - 1])
  }

  /** An index shows the last cap numbers, from the first it took over on. */
  ghost predicate Covers(H: Header, w: View, n: nat, k: int) { w.low <= k && n - H.cap <= k < n }

  ghost predicate HeaderOk(c: Config, H: Header, w: View, ents: seq<nat>, ne: nat)
    requires E.Sane(c)
  {
    && 0 < H.cap == |H.slots| && (c.W / c.B) % H.cap == 0 && w.vis <= |ents| &&
      H.tail == E.SlotOf(w.off, H.cap, w.vis - 1)
    && (forall s | 0 <= s < H.cap :: H.slots[s] < ne)
    && (forall s, t | 0 <= s < t < H.cap :: H.slots[s] != H.slots[t])
    && (forall k: nat | w.low <= k < w.vis :: H.slots[E.SlotOf(w.off, H.cap, k)] == ents[k])
  }

  ghost predicate HeadersInv(c: Config, headers: seq<Header>, views: seq<View>, ents: seq<nat>, ne: nat)
    requires E.Sane(c)
  {
    headers != [] && |views| == |headers| &&
      forall h | 0 <= h < |headers| :: HeaderOk(c, headers[h], views[h], ents, ne)
  }

  /** The newest index, and the entry being prepared for number n. */
  ghost predicate FrontInv(c: Config, H: Header, w: View, ents: seq<nat>, entries: seq<Entry>, n: nat, p: PPc)
    requires E.Sane(c)
  {
    && 0 < H.cap == |H.slots|
    && w.low <= n && w.vis == (if Adding(p) then n + 1 else n)
    && (Keyed(p) ==> |ents| == n + 1 && p.e == ents[n])
    && (p.Grow? ==> |ents| == n)
    && n <= |ents| <= n + 1
    && (|ents| == n + 1 ==>
      ents[n] == H.slots[E.SlotOf(w.off, H.cap, n)] && ents[n] < |entries| && entries[ents[n]].value.None?)
    && (p.PutKey? ==> p.e == H.slots[E.SlotOf(w.off, H.cap, n)] && p.e < |entries| && entries[p.e].value.None?)
    && (forall e | 0 <= e < |entries| && entries[e].key == INVALID :: entries[e].value.None?)
  }

  /** The keys of the numbers the newest index covers are still in place. */
  ghost predicate KeyInv(c: Config, entries: seq<Entry>, ents: seq<nat>, H: Header, w: View)
    requires E.Sane(c)
  {
    forall k: nat | Covers(H, w, |ents|, k) :: ents[k] < |entries| && entries[ents[k]].key == k * c.B % c.W
  }

  /** A block not yet taken out of the index is one that the newest index covers, and its entry shows it. */
  ghost predicate LiveInv(c: Config, entries: seq<Entry>, ents: seq<nat>, fills: seq<Block>, deq: seq<CPc>, H: Header,
                          w: View) {
    && |fills| <= |ents|
    && forall k: nat | k < |fills| && Live(c, deq, k) ::
      Covers(H, w, |ents|, k) && ents[k] < |entries| && entries[ents[k]].value == Some(fills[k])
  }

  /** Entry e shows block b. */
  ghost predicate Shows(entries: seq<Entry>, e: int, b: Block) { 0 <= e < |entries| && entries[e].value == Some(b) }

  ghost predicate ShownAs(c: Config, ents: seq<nat>, fills: seq<Block>, deq: seq<CPc>, k: int, e: int, b: Block) {
    0 <= k < |fills| <= |ents| && ents[k] == e && fills[k] == b && Live(c, deq, k)
  }

  /** Nothing but such blocks is in the index. */
  ghost predicate ShownInv(c: Config, entries: seq<Entry>, ents: seq<nat>, fills: seq<Block>, deq: seq<CPc>) {
    forall e, b | Shows(entries, e, b) :: exists k :: ShownAs(c, ents, fills, deq, k, e, b)
  }

  /** The counter of a block says how many of its elements are done; the last to count it closes it. */
  ghost predicate CountInv(c: Config, count: map<Block, nat>, fills: seq<Block>, deq: seq<CPc>, p: PPc) {
    && (forall k | 0 <= k < |fills| ::
      && (Owned(c, deq, k) ==> fills[k] in count && count[fills[k]] == In(c, deq, k, Past))
      && In(c, deq, k, Closing) == (if In(c, deq, k, Past) == c.B then 1 else 0))
    && (p.PutValue? ==> p.b in count && count[p.b] == 0)
  }

  ghost predicate OwnInv(c: Config, fills: seq<Block>, deq: seq<CPc>, p: PPc) {
    && (forall k, l | 0 <= k < l < |fills| && Owned(c, deq, k) && Owned(c, deq, l) :: fills[k] != fills[l])
    && (p.Reset? || p.PutValue? ==> forall k | 0 <= k < |fills| && Owned(c, deq, k) :: fills[k] != p.b)
  }

  /** Not yet read. */
  predicate Unread(deq: seq<CPc>, i: nat) {
    i >= |deq| || deq[i].LoadIndex? || deq[i].LoadTail? || deq[i].LoadKey? || deq[i].LoadValue? || deq[i].Read?
  }

  ghost predicate Stored(c: Config, data: map<(Block, nat), Value>, fills: seq<Block>, i: nat, x: Value)
    requires E.Sane(c)
  {
    E.Num(c, i) < |fills| && var at := (fills[E.Num(c, i)], E.Pos(c, i)); at in data && data[at] == x
  }

  ghost predicate MemInv(c: Config, data: map<(Block, nat), Value>, vals: seq<Value>, p: PPc, fills: seq<Block>,
                         deq: seq<CPc>)
    requires E.Sane(c)
  {
    && |deq| <= |vals|
    && (forall i | 0 <= i < |vals| :: E.Num(c, i) < |fills| && (Unread(deq, i) ==> Stored(c, data, fills, i, vals[i])))
    && (p.Publish? ==> Stored(c, data, fills, |vals|, p.v))
  }

  ghost predicate ConsumerOk(c: Config, i: nat, q: CPc, headers: seq<Header>, a: Aux, x: Value)
    requires E.Sane(c)
  {
    && |a.views| == |headers| && |a.fills| <= |a.ents|
    && var k := E.Num(c, i);
    && k < |a.fills|
    && match q
       case LoadIndex => true
       case LoadTail(h) => h < |headers| && Covers(headers[h], a.views[h], a.views[h].vis, k)
       case LoadKey(h, t) => h < |headers| && i in a.seen && Looked(headers[h], a.views[h].off, a.ents, t, k, a.seen[i])
       case LoadValue(e) => e == a.ents[k]
       case Read(e, b) => e == a.ents[k] && b == a.fills[k]
       case Count(e, b, y) => e == a.ents[k] && b == a.fills[k] && y == x
       case Null(e, b, y) => e == a.ents[k] && b == a.fills[k] && y == x
       case Give(b, y) => b == a.fills[k] && y == x
       case Done(y, _) => y == x
  }

  /** Slot t belongs to number n, from which the slot of number k can be reckoned. */
  ghost predicate Looked(H: Header, off: int, ents: seq<nat>, t: nat, k: nat, n: nat) {
    && 0 < H.cap == |H.slots| && k <= n < k + H.cap && n < |ents| && t == E.SlotOf(off, H.cap, n)
    && H.slots[t] == ents[n] && H.slots[E.SlotOf(off, H.cap, k)] == ents[k]
  }

  ghost predicate Consumers(c: Config, deq: seq<CPc>, headers: seq<Header>, a: Aux, vals: seq<Value>)
    requires E.Sane(c)
  {
    |deq| <= |vals| && forall i | 0 <= i < |deq| :: ConsumerOk(c, i, deq[i], headers, a, vals[i])
  }

  ghost predicate Inv(c: Config, p: Prod, m: Mem, a: Aux)
    requires E.Sane(c)
  {
    && TailInv(c, |p.vals|, |a.fills|, p.ppc)
    && TailBlockInv(p.tailBlock, a.fills)
    && HeadersInv(c, p.headers, a.views, a.ents, |p.entries|)
    && FrontInv(c, Last(p), LastView(a), a.ents, p.entries, |a.fills|, p.ppc)
    && KeyInv(c, p.entries, a.ents, Last(p), LastView(a))
    && LiveInv(c, p.entries, a.ents, a.fills, p.deq, Last(p), LastView(a))
    && ShownInv(c, p.entries, a.ents, a.fills, p.deq)
    && CountInv(c, m.count, a.fills, p.deq, p.ppc)
    && OwnInv(c, a.fills, p.deq, p.ppc)
    && MemInv(c, m.data, p.vals, p.ppc, a.fills, p.deq)
    && Consumers(c, p.deq, p.headers, a, p.vals)
  }

  lemma InvShape(c: Config, p: Prod, m: Mem, a: Aux)
    requires E.Sane(c) && Inv(c, p, m, a)
    ensures Shape(p)
  {
    forall h | 0 <= h < |p.headers|
      ensures p.headers[h].tail < p.headers[h].cap == |p.headers[h].slots|
      ensures forall s | 0 <= s < p.headers[h].cap :: p.headers[h].slots[s] < |p.entries|
    {
      assert HeaderOk(c, p.headers[h], a.views[h], a.ents, |p.entries|);
    }
  }

  lemma InitInv(c: Config, m: Mem) returns (a: Aux)
    requires E.Sane(c)
    ensures Inv(c, Init(c), m, a)
    ensures a.fills == []
  {
    a := Aux([], [], [View(0, 0, 0)], map[]);
    ModIs(-1, c.size0, -1);
    E.NumPos(c, 0, 0);
    ModSmall(0, c.B);
  }

  lemma ShownKept(c: Config, entries: seq<Entry>, entries': seq<Entry>, ents: seq<nat>, ents': seq<nat>,
                  fills: seq<Block>, deq: seq<CPc>, deq': seq<CPc>)
    requires ShownInv(c, entries, ents, fills, deq) && |fills| <= |ents'|
    requires forall e, b | Shows(entries', e, b) :: Shows(entries, e, b)
    requires forall k | 0 <= k < |fills| && |fills| <= |ents| :: ents'[k] == ents[k]
    requires forall k: nat | Live(c, deq, k) :: Live(c, deq', k)
    ensures ShownInv(c, entries', ents', fills, deq')
  {
    hide Live;
    forall e, b | Shows(entries', e, b)
      ensures exists k :: ShownAs(c, ents', fills, deq', k, e, b)
    {
      assert Shows(entries, e, b);
      var k :| ShownAs(c, ents, fills, deq, k, e, b);
      assert ShownAs(c, ents', fills, deq', k, e, b);
    }
  }

  // ---------------------------------------------------------------- facts about blocks

  /** A block with an element that nobody has counted yet is in the index. */
  lemma Uncounted(c: Config, count: map<Block, nat>, fills: seq<Block>, deq: seq<CPc>, p: PPc, i: nat)
    requires E.Sane(c) && CountInv(c, count, fills, deq, p) && E.Num(c, i) < |fills| && (i >= |deq| || !Past(deq[i]))
    ensures Live(c, deq, E.Num(c, i)) && Owned(c, deq, E.Num(c, i)) && In(c, deq, E.Num(c, i), Past) < c.B
    ensures In(c, deq, E.Num(c, i), Closing) == 0
  {
    var k := E.Num(c, i);
    InRange(c, i, k);
    TallyMiss(deq, k * c.B, k * c.B + c.B, Past, i);
    assert In(c, deq, k, Closing) == 0 by { var b := fills[k]; }
    TallyLess(deq, k * c.B, k * c.B + c.B, Unlisted, Closing);
    LiveOwned(c, deq, k);
  }

  /** So is one whose last dequeuer has yet to take it out. */
  lemma NotUnlisted(c: Config, count: map<Block, nat>, fills: seq<Block>, deq: seq<CPc>, p: PPc, i: nat)
    requires E.Sane(c) && CountInv(c, count, fills, deq, p) && i < |deq| && E.Num(c, i) < |fills| && deq[i].Null?
    ensures Live(c, deq, E.Num(c, i))
  {
    var k := E.Num(c, i);
    var deq' := deq[i := Done(0, false)];
    InUpdate(c, deq, k, Closing, i, Done(0, false));
    InUpdate(c, deq, k, Unlisted, i, Done(0, false));
    TallyLess(deq', k * c.B, k * c.B + c.B, Unlisted, Closing);
  }

  lemma NotReturned(c: Config, count: map<Block, nat>, fills: seq<Block>, deq: seq<CPc>, p: PPc, i: nat)
    requires E.Sane(c) && CountInv(c, count, fills, deq, p) && i < |deq| && E.Num(c, i) < |fills|
    requires deq[i].Null? || deq[i].Give?
    ensures Owned(c, deq, E.Num(c, i))
  {
    var k := E.Num(c, i);
    var deq' := deq[i := Done(0, false)];
    InUpdate(c, deq, k, Closing, i, Done(0, false));
    InUpdate(c, deq, k, Returned, i, Done(0, false));
    TallyLess(deq', k * c.B, k * c.B + c.B, Returned, Closing);
  }

  lemma BlockStart(c: Config, T: nat, n: nat)
    requires E.Sane(c) && E.Num(c, T) == n && E.Pos(c, T) == 0
    ensures T == n * c.B
  {
    E.NumPos(c, T, T);
  }

  lemma KnowHeader(c: Config, p: Prod, m: Mem, a: Aux)
    requires E.Sane(c) && Inv(c, p, m, a)
    ensures p.headers != [] && |a.views| == |p.headers| && HeaderOk(c, Last(p), LastView(a), a.ents, |p.entries|)
    ensures Shape(p)
  {
    hide HeaderOk, FrontInv, KeyInv, LiveInv, ShownInv, CountInv, OwnInv, MemInv, Consumers;
    InvShape(c, p, m, a);
  }

  // ---------------------------------------------------------------- producer steps

  /** Only the producer's place in the code changes. */
  lemma KeepPc(c: Config, p: Prod, m: Mem, a: Aux, q: PPc)
    requires E.Sane(c) && Inv(c, p, m, a) && TailInv(c, |p.vals|, |a.fills|, q)
    requires FrontInv(c, Last(p), LastView(a), a.ents, p.entries, |a.fills|, q)
    requires !q.PutValue? && !q.Publish? &&
      (q.Reset? ==> forall k | 0 <= k < |a.fills| && Owned(c, p.deq, k) :: a.fills[k] != q.b)
    ensures Inv(c, p.(ppc := q), m, a)
  {
    hide TailInv, FrontInv, HeadersInv, KeyInv, LiveInv, ShownInv, Consumers, Live, Owned, In, Stored;
  }

  lemma KeepBegin(c: Config, p: Prod, m: Mem, a: Aux, v: Value)
    requires E.Sane(c) && Inv(c, p, m, a)
    ensures Inv(c, Begin(c, p, v), m, a)
  {
    hide HeadersInv, KeyInv, LiveInv, ShownInv, CountInv, OwnInv, MemInv, Consumers;
    if p.ppc == Ready { KeepPc(c, p, m, a, Begin(c, p, v).ppc); }
  }

  lemma KeepRoom(c: Config, p: Prod, m: Mem, a: Aux, ok: bool, block: Option<Block>)
    requires E.Sane(c) && Inv(c, p, m, a) && Shape(p) && (p.ppc.Room? || p.ppc.Insert?)
    ensures Produced(c, p, m, ok, block).1 == m && Inv(c, Produced(c, p, m, ok, block).0, m, a)
  {
    KnowHeader(c, p, m, a);
    var L, w := Last(p), LastView(a);
    E.SlotSucc(w.off, L.cap, w.vis - 1);
    hide HeadersInv, HeaderOk, KeyInv, LiveInv, ShownInv, CountInv, OwnInv, MemInv, Consumers, Shape;
    KeepPc(c, p, m, a, Produced(c, p, m, ok, block).0.ppc);
  }

  /** requisition_block returned a block that is not in use here, or none. */
  lemma KeepTake(c: Config, p: Prod, m: Mem, a: Aux, ok: bool, block: Option<Block>)
    requires E.Sane(c) && Inv(c, p, m, a) && Shape(p) && p.ppc.Take?
    requires block.Some? ==> forall k | 0 <= k < |a.fills| && Owned(c, p.deq, k) :: a.fills[k] != block.value
    ensures Produced(c, p, m, ok, block).1 == m && Inv(c, Produced(c, p, m, ok, block).0, m, a)
  {
    hide HeadersInv, HeaderOk, KeyInv, LiveInv, ShownInv, CountInv, OwnInv, MemInv, Consumers, Shape;
    KeepPc(c, p, m, a, Produced(c, p, m, ok, block).0.ppc);
  }

  lemma KeepPutKey(c: Config, p: Prod, m: Mem, a: Aux, ok: bool, block: Option<Block>) returns (a': Aux)
    requires E.Sane(c) && Inv(c, p, m, a) && Shape(p) && p.ppc.PutKey?
    ensures Produced(c, p, m, ok, block).1 == m && Inv(c, Produced(c, p, m, ok, block).0, m, a')
    ensures a'.fills == a.fills
  {
    hide HeadersInv, KeyInv, LiveInv, ShownInv, CountInv, OwnInv, MemInv, Consumers, Shape, HeaderOk;
    KnowHeader(c, p, m, a);
    var n, e := |a.fills|, p.ppc.e;
    var p' := Produced(c, p, m, ok, block).0;
    a' := a.(ents := a.ents[..n] + [e]);
    BlockStart(c, |p.vals|, n);
    KeyPut(c, p.entries, p'.entries, a.ents, a'.ents, a.fills, p.deq, Last(p), LastView(a), n, e);
    ShownKept(c, p.entries, p'.entries, a.ents, a'.ents, a.fills, p.deq, p.deq);
    HeadersExtend(c, p.headers, a.views, a.ents, a'.ents, |p.entries|);
    ConsumersExtend(c, p.deq, p.headers, a, a', p.vals, p.vals);
    PcKeeps(c, m, p.vals, p.ppc, p'.ppc, a.fills, p.deq);
    KeyValid(c, n);
  }

  lemma KeyValid(c: Config, n: nat)
    requires E.Sane(c)
    ensures n * c.B % c.W != INVALID
  {
    var q, m := n * c.B / c.W, c.W / c.B;
    assert n * c.B == c.W * q + n * c.B % c.W && c.W == m * c.B;
    assert n * c.B % c.W == (n - m * q) * c.B;
    if n - m * q >= 1 { MulAtLeast(n - m * q, c.B); }
    if n - m * q <= 0 { assert (n - m * q) * c.B <= 0; }
  }

  lemma PcKeeps(c: Config, m: Mem, vals: seq<Value>, p: PPc, q: PPc, fills: seq<Block>, deq: seq<CPc>)
    requires E.Sane(c) && CountInv(c, m.count, fills, deq, p) && OwnInv(c, fills, deq, p) &&
      MemInv(c, m.data, vals, p, fills, deq)
    requires !q.PutValue? && !q.Reset? && !q.Publish?
    ensures CountInv(c, m.count, fills, deq, q) && OwnInv(c, fills, deq, q) && MemInv(c, m.data, vals, q, fills, deq)
  {
  }

  lemma HeadersExtend(c: Config, headers: seq<Header>, views: seq<View>, ents: seq<nat>, ents': seq<nat>, ne: nat)
    requires E.Sane(c) && HeadersInv(c, headers, views, ents, ne) && ents <= ents'
    ensures HeadersInv(c, headers, views, ents', ne)
  {
    forall h | 0 <= h < |headers|
      ensures HeaderOk(c, headers[h], views[h], ents', ne)
    {
      assert HeaderOk(c, headers[h], views[h], ents, ne);
    }
  }

  lemma ConsumersExtend(c: Config, deq: seq<CPc>, headers: seq<Header>, a: Aux, a': Aux, vals: seq<Value>,
                        vals': seq<Value>)
    requires E.Sane(c) && Consumers(c, deq, headers, a, vals) && vals <= vals' && |a'.fills| <= |a'.ents|
    requires a.fills <= a'.fills && a.ents <= a'.ents && a'.views == a.views && a'.seen == a.seen
    ensures Consumers(c, deq, headers, a', vals')
  {
    forall i | 0 <= i < |deq|
      ensures ConsumerOk(c, i, deq[i], headers, a', vals'[i])
    {
      assert ConsumerOk(c, i, deq[i], headers, a, vals[i]);
    }
  }

  /** The slot behind the tail holds the entry of no number that stays covered. */
  lemma SlotFree(c: Config, H: Header, w: View, ents: seq<nat>, ne: nat, n: nat, k: nat)
    requires E.Sane(c) && HeaderOk(c, H, w, ents, ne) && w.vis == n && k < n && w.low <= k && n + 1 - H.cap <= k
    ensures H.slots[E.SlotOf(w.off, H.cap, n)] != ents[k]
  {
    E.SlotsDiffer(w.off, H.cap, k, n);
  }

  lemma SlotWraps(c: Config, H: Header, w: View, ents: seq<nat>, ne: nat, n: nat)
    requires E.Sane(c) && HeaderOk(c, H, w, ents, ne) && w.vis == n && w.low + H.cap <= n
    ensures H.slots[E.SlotOf(w.off, H.cap, n)] == ents[n - H.cap]
  {
    ModPlus(w.off + n - H.cap, H.cap, 1);
  }

  lemma KeyPut(c: Config, entries: seq<Entry>, entries': seq<Entry>, ents: seq<nat>, ents': seq<nat>, fills: seq<Block>,
               deq: seq<CPc>,
               H: Header, w: View, n: nat, e: nat)
    requires E.Sane(c) && HeaderOk(c, H, w, ents, |entries|) && w.vis == n == |fills| && w.low <= n
    requires KeyInv(c, entries, ents, H, w) && LiveInv(c, entries, ents, fills, deq, H, w)
    requires n <= |ents| <= n + 1 && ents' == ents[..n] + [e] && e == H.slots[E.SlotOf(w.off, H.cap, n)]
    requires e < |entries| && entries[e].value.None? && entries' == entries[e := entries[e].(key := n * c.B % c.W)]
    ensures KeyInv(c, entries', ents', H, w) && LiveInv(c, entries', ents', fills, deq, H, w)
  {
    forall k: nat | Covers(H, w, n + 1, k)
      ensures ents'[k] < |entries'| && entries'[ents'[k]].key == k * c.B % c.W
    {
      if k < n {
        SlotFree(c, H, w, ents, |entries|, n, k);
        assert Covers(H, w, |ents|, k);
      }
    }
    forall k: nat | k < n && Live(c, deq, k)
      ensures Covers(H, w, n + 1, k) && ents'[k] < |entries'| && entries'[ents'[k]].value == Some(fills[k])
    {
      if k < n + 1 - H.cap {
        SlotWraps(c, H, w, ents, |entries|, n);
      } else {
        SlotFree(c, H, w, ents, |entries|, n, k);
      }
    }
  }

  lemma KeepPutTail(c: Config, p: Prod, m: Mem, a: Aux, ok: bool, block: Option<Block>) returns (a': Aux)
    requires E.Sane(c) && Inv(c, p, m, a) && Shape(p) && p.ppc.PutTail?
    ensures Produced(c, p, m, ok, block).1 == m && Inv(c, Produced(c, p, m, ok, block).0, m, a')
    ensures a'.fills == a.fills
  {
    hide HeadersInv, KeyInv, LiveInv, ShownInv, CountInv, OwnInv, MemInv, Consumers, Shape, HeaderOk;
    KnowHeader(c, p, m, a);
    KnowTail(c, Last(p), LastView(a), a.ents, |p.entries|);
    var n, w := |a.fills|, LastView(a);
    var p' := Produced(c, p, m, ok, block).0;
    E.SlotSucc(w.off, Last(p).cap, w.vis - 1);
    var w' := w.(vis := n + 1);
    a' := a.(views := a.views[|a.views| - 1 := w']);
    HeaderShows(c, Last(p), Last(p'), w, w', a.ents, |p.entries|, n);
    HeadersChange(c, p.headers, p'.headers, a.views, a'.views, a.ents, |p.entries|);
    CoverChange(c, p.entries, a.ents, a.fills, p.deq, Last(p), Last(p'), w, w');
    ConsumersTail(c, p, p', m, a, a');
    PcKeeps(c, m, p.vals, p.ppc, p'.ppc, a.fills, p.deq);
  }

  lemma HeaderShows(c: Config, H: Header, H': Header, w: View, w': View, ents: seq<nat>, ne: nat, n: nat)
    requires E.Sane(c) && HeaderOk(c, H, w, ents, ne) && w.vis == n && |ents| == n + 1
    requires H' == H.(tail := E.SlotOf(w.off, H.cap, n)) && w' == w.(vis := n + 1) &&
      ents[n] == H.slots[E.SlotOf(w.off, H.cap, n)]
    ensures HeaderOk(c, H', w', ents, ne)
  {
  }

  lemma HeadersChange(c: Config, headers: seq<Header>, headers': seq<Header>, views: seq<View>, views': seq<View>,
                      ents: seq<nat>, ne: nat)
    requires E.Sane(c) && HeadersInv(c, headers, views, ents, ne)
    requires |headers'| == |headers| && |views'| == |views|
    requires var l := |headers| - 1;
             && headers' == headers[l := headers'[l]] && views' == views[l := views'[l]]
             && HeaderOk(c, headers'[l], views'[l], ents, ne)
    ensures HeadersInv(c, headers', views', ents, ne)
  {
    hide HeaderOk;
  }

  /** What is covered depends on the capacity and the first number only. */
  lemma CoverChange(c: Config, entries: seq<Entry>, ents: seq<nat>, fills: seq<Block>, deq: seq<CPc>, H: Header,
                    H': Header, w: View, w': View)
    requires E.Sane(c) && KeyInv(c, entries, ents, H, w) && LiveInv(c, entries, ents, fills, deq, H, w)
    requires H'.cap == H.cap && w'.low == w.low
    ensures KeyInv(c, entries, ents, H', w') && LiveInv(c, entries, ents, fills, deq, H', w')
  {
    assert forall n: nat, k: int :: Covers(H', w', n, k) == Covers(H, w, n, k);
  }

  /** The tail of the newest index moves between showing n and n + 1 numbers. */
  lemma ConsumersTail(c: Config, p: Prod, p': Prod, m: Mem, a: Aux, a': Aux)
    requires E.Sane(c) && Consumers(c, p.deq, p.headers, a, p.vals) && CountInv(c, m.count, a.fills, p.deq, p.ppc)
    requires a.views != [] && |a.views| == |p.headers|
    requires LiveInv(c, p.entries, a.ents, a.fills, p.deq, Last(p), LastView(a)) && |a.ents| == |a.fills| + 1
    requires p'.headers != [] && p'.headers == SetTail(p, Last(p').tail) && Last(p') == Last(p).(tail := Last(p').tail)
    requires a'.views != [] && a' == a.(views := a.views[|a.views| - 1 := LastView(a).(vis := LastView(a').vis)])
    requires |a.fills| <= LastView(a').vis <= |a.ents|
    ensures Consumers(c, p.deq, p'.headers, a', p.vals)
  {
    forall i | 0 <= i < |p.deq|
      ensures ConsumerOk(c, i, p.deq[i], p'.headers, a', p.vals[i])
    {
      assert ConsumerOk(c, i, p.deq[i], p.headers, a, p.vals[i]);
      if p.deq[i].LoadTail? {
        Uncounted(c, m.count, a.fills, p.deq, p.ppc, i);
        hide Live, Owned, In, CountInv;
        assert Covers(Last(p), LastView(a), |a.ents|, E.Num(c, i));
      }
    }
  }

  lemma KeepRewind(c: Config, p: Prod, m: Mem, a: Aux, ok: bool, block: Option<Block>) returns (a': Aux)
    requires E.Sane(c) && Inv(c, p, m, a) && Shape(p) && p.ppc.Rewind?
    ensures Produced(c, p, m, ok, block).1 == m && Inv(c, Produced(c, p, m, ok, block).0, m, a')
    ensures a'.fills == a.fills
  {
    hide HeadersInv, KeyInv, LiveInv, ShownInv, CountInv, OwnInv, MemInv, Consumers, Shape, HeaderOk;
    KnowHeader(c, p, m, a);
    KnowTail(c, Last(p), LastView(a), a.ents, |p.entries|);
    var n, w := |a.fills|, LastView(a);
    var p' := Produced(c, p, m, ok, block).0;
    ModAdd(w.off + n, -1, Last(p).cap);
    var w' := w.(vis := n);
    a' := a.(views := a.views[|a.views| - 1 := w']);
    HeaderHides(c, Last(p), Last(p'), w, w', a.ents, |p.entries|, n);
    HeadersChange(c, p.headers, p'.headers, a.views, a'.views, a.ents, |p.entries|);
    CoverChange(c, p.entries, a.ents, a.fills, p.deq, Last(p), Last(p'), w, w');
    ConsumersTail(c, p, p', m, a, a');
    PcKeeps(c, m, p.vals, p.ppc, p'.ppc, a.fills, p.deq);
  }

  lemma HeaderHides(c: Config, H: Header, H': Header, w: View, w': View, ents: seq<nat>, ne: nat, n: nat)
    requires E.Sane(c) && HeaderOk(c, H, w, ents, ne) && w.vis == n + 1
    requires H' == H.(tail := E.SlotOf(w.off, H.cap, n - 1)) && w' == w.(vis := n)
    ensures HeaderOk(c, H', w', ents, ne)
  {
  }

  lemma KnowTail(c: Config, H: Header, w: View, ents: seq<nat>, ne: nat)
    requires E.Sane(c) && HeaderOk(c, H, w, ents, ne)
    ensures 0 < H.cap == |H.slots| && H.tail == E.SlotOf(w.off, H.cap, w.vis - 1)
  {
  }

  lemma KeepGrow(c: Config, p: Prod, m: Mem, a: Aux, ok: bool, block: Option<Block>) returns (a': Aux)
    requires E.Sane(c) && Inv(c, p, m, a) && Shape(p) && p.ppc.Grow?
    ensures Produced(c, p, m, ok, block).1 == m && Inv(c, Produced(c, p, m, ok, block).0, m, a')
    ensures a'.fills == a.fills
  {
    hide HeadersInv, KeyInv, LiveInv, ShownInv, CountInv, OwnInv, MemInv, Consumers, Shape, HeaderOk;
    KnowHeader(c, p, m, a);
    KnowTail(c, Last(p), LastView(a), a.ents, |p.entries|);
    var L, w, n := Last(p), LastView(a), |a.fills|;
    var p' := Produced(c, p, m, ok, block).0;
    a' := a;
    if !ok || (c.W / c.B) % (2 * L.cap) != 0 {
      KeepPc(c, p, m, a, Ready);
    } else {
      var H, w' := Grown(L, |p.entries|), View(L.cap - n, if w.low < n - L.cap then n - L.cap else w.low, n);
      a' := a.(views := a.views + [w']);
      GrownOk(c, L, w, a.ents, |p.entries|, n);
      HeadersGrow(c, p.headers, a.views, a.ents, |p.entries|, |p'.entries|, H, w');
      GrownCovers(c, p.entries, p'.entries, a.ents, a.fills, p.deq, L, w, H, w');
      ShownKept(c, p.entries, p'.entries, a.ents, a.ents, a.fills, p.deq, p.deq);
      ConsumersGrow(c, p.deq, p.headers, p'.headers, a, a', p.vals);
      PcKeeps(c, m, p.vals, p.ppc, p'.ppc, a.fills, p.deq);
      ModSmall(L.cap, 2 * L.cap);
    }
  }

  lemma GrownOk(c: Config, L: Header, w: View, ents: seq<nat>, ne: nat, n: nat)
    requires E.Sane(c) && HeaderOk(c, L, w, ents, ne) && w.vis == n == |ents| && (c.W / c.B) % (2 * L.cap) == 0
    ensures HeaderOk(c, Grown(L, ne), View(L.cap - n, if w.low < n - L.cap then n - L.cap else w.low, n), ents,
      ne + L.cap)
  {
    var H, low := Grown(L, ne), if w.low < n - L.cap then n - L.cap else w.low;
    ModSmall(L.cap - 1, 2 * L.cap);
    GrownDistinct(L, ne);
    GrownShows(L, w.off, ents, n, low, ne);
    hide Grown;
  }

  lemma GrownDistinct(L: Header, ne: nat)
    requires 0 < L.cap == |L.slots| && (forall s | 0 <= s < L.cap :: L.slots[s] < ne)
    requires forall s, t | 0 <= s < t < L.cap :: L.slots[s] != L.slots[t]
    ensures var H := Grown(L, ne);
            && (forall s | 0 <= s < H.cap :: H.slots[s] < ne + L.cap)
            && (forall s, t | 0 <= s < t < H.cap :: H.slots[s] != H.slots[t])
  {
    var H := Grown(L, ne);
    forall s, t | 0 <= s < t < H.cap
      ensures H.slots[s] != H.slots[t]
    {
      if t < L.cap { E.SlotsDiffer(L.tail + 1, L.cap, s, t); }
    }
  }

  lemma GrownShows(L: Header, off: int, ents: seq<nat>, n: nat, low: nat, ne: nat)
    requires 0 < L.cap == |L.slots| && n <= |ents| && n - L.cap <= low && L.tail == E.SlotOf(off, L.cap, n - 1)
    requires forall k: nat | low <= k < n :: L.slots[E.SlotOf(off, L.cap, k)] == ents[k]
    ensures forall k: nat | low <= k < n :: Grown(L, ne).slots[E.SlotOf(L.cap - n, 2 * L.cap, k)] == ents[k]
  {
    forall k: nat | low <= k < n
      ensures Grown(L, ne).slots[E.SlotOf(L.cap - n, 2 * L.cap, k)] == ents[k]
    {
      GrownSlot(off, L.cap, n, k);
    }
  }

  /** Number k, in its old slot counted from behind the tail, and in its new one. */
  lemma GrownSlot(off: int, cap: nat, n: nat, k: nat)
    requires cap > 0 && n - cap <= k < n
    ensures E.SlotOf(cap - n, 2 * cap, k) == cap - n + k
    ensures (E.SlotOf(off, cap, n - 1) + 1 + (cap - n + k)) % cap == E.SlotOf(off, cap, k)
  {
    ModSmall(cap - n + k, 2 * cap);
    ModAdd(off + n - 1, 1 + cap - n + k, cap);
    ModPlus(off + k, cap, 1);
  }

  lemma HeadersGrow(c: Config, headers: seq<Header>, views: seq<View>, ents: seq<nat>, ne: nat, ne': nat, H: Header,
                    w: View)
    requires E.Sane(c) && HeadersInv(c, headers, views, ents, ne) && ne <= ne' && HeaderOk(c, H, w, ents, ne')
    ensures HeadersInv(c, headers + [H], views + [w], ents, ne')
  {
    forall h | 0 <= h < |headers|
      ensures HeaderOk(c, headers[h], views[h], ents, ne')
    {
      assert HeaderOk(c, headers[h], views[h], ents, ne);
    }
  }

  lemma GrownCovers(c: Config, entries: seq<Entry>, entries': seq<Entry>, ents: seq<nat>, fills: seq<Block>,
                    deq: seq<CPc>,
                    L: Header, w: View, H: Header, w': View)
    requires E.Sane(c) && KeyInv(c, entries, ents, L, w) && LiveInv(c, entries, ents, fills, deq, L, w)
    requires entries <= entries' && H.cap == 2 * L.cap &&
      w'.low == if w.low < |ents| - L.cap then |ents| - L.cap else w.low
    ensures KeyInv(c, entries', ents, H, w') && LiveInv(c, entries', ents, fills, deq, H, w')
  {
    forall k: nat | Covers(H, w', |ents|, k)
      ensures ents[k] < |entries'| && entries'[ents[k]].key == k * c.B % c.W
    {
      assert Covers(L, w, |ents|, k);
    }
  }

  lemma ConsumersGrow(c: Config, deq: seq<CPc>, headers: seq<Header>, headers': seq<Header>, a: Aux, a': Aux,
                      vals: seq<Value>)
    requires E.Sane(c) && Consumers(c, deq, headers, a, vals) && headers <= headers' && a.views <= a'.views
    requires |a'.views| == |headers'| && a' == a.(views := a'.views)
    ensures Consumers(c, deq, headers', a', vals)
  {
    forall i | 0 <= i < |deq|
      ensures ConsumerOk(c, i, deq[i], headers', a', vals[i])
    {
      assert ConsumerOk(c, i, deq[i], headers, a, vals[i]);
    }
  }

  lemma KeepClear(c: Config, p: Prod, m: Mem, a: Aux, ok: bool, block: Option<Block>)
    requires E.Sane(c) && Inv(c, p, m, a) && Shape(p) && p.ppc.Clear?
    ensures Produced(c, p, m, ok, block).1 == m && Inv(c, Produced(c, p, m, ok, block).0, m, a)
  {
    hide HeadersInv, HeaderOk, KeyInv, LiveInv, ShownInv, CountInv, OwnInv, MemInv, Consumers, Shape;
    assert Produced(c, p, m, ok, block).0 == p.(ppc := Ready);
    KeepPc(c, p, m, a, Ready);
  }

  lemma KeepReset(c: Config, p: Prod, m: Mem, a: Aux, ok: bool, block: Option<Block>)
    requires E.Sane(c) && Inv(c, p, m, a) && Shape(p) && p.ppc.Reset?
    ensures Inv(c, Produced(c, p, m, ok, block).0, Produced(c, p, m, ok, block).1, a)
  {
    hide HeadersInv, HeaderOk, KeyInv, LiveInv, ShownInv, Consumers, Shape, Live, Owned, In, Stored;
  }

  lemma KeepPutValue(c: Config, p: Prod, m: Mem, a: Aux, ok: bool, block: Option<Block>) returns (a': Aux)
    requires E.Sane(c) && Inv(c, p, m, a) && Shape(p) && p.ppc.PutValue?
    ensures Produced(c, p, m, ok, block).1 == m && Inv(c, Produced(c, p, m, ok, block).0, m, a')
    ensures a'.fills == a.fills + [p.ppc.b]
  {
    hide HeadersInv, HeaderOk, KeyInv, LiveInv, ShownInv, CountInv, OwnInv, MemInv, Consumers, Shape;
    KnowHeader(c, p, m, a);
    var n, e, b := |a.fills|, p.ppc.e, p.ppc.b;
    var p' := Produced(c, p, m, ok, block).0;
    a' := a.(fills := a.fills + [b]);
    BlockStart(c, |p.vals|, n);
    ValuePut(c, p.entries, p'.entries, a.ents, a.fills, p.deq, Last(p), LastView(a), e, b, |p.entries|);
    KnowPublish(c, p, m, a);
    ShownPut(c, p.entries, p'.entries, a.ents, a.fills, p.deq, e, b);
    BlockAdds(c, m, p.vals, p.ppc, p'.ppc, a.fills, p.deq, b);
    ConsumersExtend(c, p.deq, p.headers, a, a', p.vals, p.vals);
    KeyIsSet(c, p.entries, a.ents, Last(p), LastView(a), n);
    KeyValid(c, n);
  }

  lemma ShownPut(c: Config, entries: seq<Entry>, entries': seq<Entry>, ents: seq<nat>, fills: seq<Block>, deq: seq<CPc>,
                 e: nat, b: Block)
    requires ShownInv(c, entries, ents, fills, deq) && |ents| == |fills| + 1 && e == ents[|fills|] && e < |entries|
    requires entries' == entries[e := entries[e].(value := Some(b))] && |deq| <= |fills| * c.B
    ensures ShownInv(c, entries', ents, fills + [b], deq)
  {
    NobodyYet(c, deq, |fills|, Unlisted);
    hide In;
    forall d, x | Shows(entries', d, x)
      ensures exists k :: ShownAs(c, ents, fills + [b], deq, k, d, x)
    {
      if d == e {
        assert ShownAs(c, ents, fills + [b], deq, |fills|, d, x);
      } else {
        assert Shows(entries, d, x);
        var k :| ShownAs(c, ents, fills, deq, k, d, x);
        assert ShownAs(c, ents, fills + [b], deq, k, d, x);
      }
    }
  }

  lemma KeyIsSet(c: Config, entries: seq<Entry>, ents: seq<nat>, H: Header, w: View, n: nat)
    requires E.Sane(c) && KeyInv(c, entries, ents, H, w) && |ents| == n + 1 && w.low <= n && H.cap > 0
    ensures ents[n] < |entries| && entries[ents[n]].key == n * c.B % c.W
  {
    assert Covers(H, w, n + 1, n);
  }

  lemma ValuePut(c: Config, entries: seq<Entry>, entries': seq<Entry>, ents: seq<nat>, fills: seq<Block>, deq: seq<CPc>,
                 H: Header, w: View, e: nat, b: Block, ne: nat)
    requires E.Sane(c) && HeaderOk(c, H, w, ents, ne) && w.vis == |ents| == |fills| + 1 && w.low <= |fills|
    requires KeyInv(c, entries, ents, H, w) && LiveInv(c, entries, ents, fills, deq, H, w)
    requires e == ents[|fills|] && e < |entries| && entries' == entries[e := entries[e].(value := Some(b))]
    ensures KeyInv(c, entries', ents, H, w) && LiveInv(c, entries', ents, fills + [b], deq, H, w)
  {
    var n := |fills|;
    forall k: nat | k < n && Live(c, deq, k)
      ensures ents[k] != e
    {
      assert Covers(H, w, n + 1, k);
      E.SlotsDiffer(w.off, H.cap, k, n);
    }
    forall k: nat | Covers(H, w, |ents|, k)
      ensures ents[k] < |entries'| && entries'[ents[k]].key == k * c.B % c.W
    {
    }
  }

  lemma BlockAdds(c: Config, m: Mem, vals: seq<Value>, p: PPc, q: PPc, fills: seq<Block>, deq: seq<CPc>, b: Block)
    requires E.Sane(c) && CountInv(c, m.count, fills, deq, p) && OwnInv(c, fills, deq, p) &&
      MemInv(c, m.data, vals, p, fills, deq)
    requires p.PutValue? && p.b == b && |vals| == |fills| * c.B && q.Construct?
    ensures CountInv(c, m.count, fills + [b], deq, q) && OwnInv(c, fills + [b], deq, q) &&
      MemInv(c, m.data, vals, q, fills + [b], deq)
  {
    var n := |fills|;
    NobodyYet(c, deq, n, Past);
    NobodyYet(c, deq, n, Closing);
    NobodyYet(c, deq, n, Returned);
    hide In, Live, Stored;
    forall i | 0 <= i < |vals|
      ensures Unread(deq, i) ==> Stored(c, m.data, fills + [b], i, vals[i])
    {
      StoredSame(c, m.data, fills, fills + [b], i, vals[i]);
    }
  }

  lemma StoredSame(c: Config, data: map<(Block, nat), Value>, fills: seq<Block>, fills': seq<Block>, i: nat, x: Value)
    requires E.Sane(c) && fills <= fills' && E.Num(c, i) < |fills|
    ensures Stored(c, data, fills, i, x) ==> Stored(c, data, fills', i, x)
  {
  }

  lemma NobodyYet(c: Config, deq: seq<CPc>, n: nat, f: CPc -> bool)
    requires |deq| <= n * c.B
    ensures In(c, deq, n, f) == 0
  {
    TallyNone(deq, n * c.B, n * c.B + c.B, f);
  }

  lemma KeepConstruct(c: Config, p: Prod, m: Mem, a: Aux, ok: bool, block: Option<Block>)
    requires E.Sane(c) && Inv(c, p, m, a) && Shape(p) && p.ppc.Construct?
    ensures Inv(c, Produced(c, p, m, ok, block).0, Produced(c, p, m, ok, block).1, a)
  {
    hide HeadersInv, HeaderOk, KeyInv, LiveInv, ShownInv, Consumers, Shape, Stored, Live, Owned, In;
    var n, T, v := |a.fills|, |p.vals|, p.ppc.v;
    var b := a.fills[n - 1];
    Uncounted(c, m.count, a.fills, p.deq, p.ppc, T);
    var data' := m.data[(b, T % c.B) := v];
    forall i | 0 <= i < T && Unread(p.deq, i)
      ensures Stored(c, data', a.fills, i, p.vals[i])
    {
      assert Stored(c, m.data, a.fills, i, p.vals[i]);
      Uncounted(c, m.count, a.fills, p.deq, p.ppc, i);
      E.NumPos(c, i, T);
      StoredElsewhere(c, m.data, a.fills, i, p.vals[i], T, v);
    }
    assert Stored(c, data', a.fills, T, v) by { JustStored(c, m.data, a.fills, T, v); }
  }

  lemma JustStored(c: Config, data: map<(Block, nat), Value>, fills: seq<Block>, T: nat, v: Value)
    requires E.Sane(c) && E.Num(c, T) < |fills|
    ensures Stored(c, data[(fills[E.Num(c, T)], T % c.B) := v], fills, T, v)
  {
  }

  lemma StoredElsewhere(c: Config, data: map<(Block, nat), Value>, fills: seq<Block>, i: nat, x: Value, T: nat,
                        v: Value)
    requires E.Sane(c) && Stored(c, data, fills, i, x) && E.Num(c, T) < |fills|
    requires fills[E.Num(c, i)] != fills[E.Num(c, T)] || E.Pos(c, i) != E.Pos(c, T)
    ensures Stored(c, data[(fills[E.Num(c, T)], T % c.B) := v], fills, i, x)
  {
  }

  lemma KeepPublish(c: Config, p: Prod, m: Mem, a: Aux, ok: bool, block: Option<Block>)
    requires E.Sane(c) && Inv(c, p, m, a) && Shape(p) && p.ppc.Publish?
    ensures Produced(c, p, m, ok, block).1 == m && Inv(c, Produced(c, p, m, ok, block).0, m, a)
  {
    var p' := Produced(c, p, m, ok, block).0;
    E.NumSucc(c, |p.vals|);
    E.NumPos(c, |p.vals| + 1, |p.vals|);
    hide HeadersInv, HeaderOk, KeyInv, LiveInv, ShownInv, Shape, Stored, Live, Owned, In, Consumers;
    KnowPublish(c, p, m, a);
    ConsumersExtend(c, p.deq, p.headers, a, a, p.vals, p'.vals);
  }

  lemma KnowPublish(c: Config, p: Prod, m: Mem, a: Aux)
    requires E.Sane(c) && Inv(c, p, m, a)
    ensures |a.fills| <= |a.ents| && |a.views| == |p.headers| && p.headers != [] && |p.deq| <= |p.vals|
  {
  }

  // ---------------------------------------------------------------- dequeuer steps

  /** A step that does not touch the block's counter or entry. */
  predicate SameClass(q: CPc, r: CPc) {
    Past(q) == Past(r) && Closing(q) == Closing(r) && Unlisted(q) == Unlisted(r) && Returned(q) == Returned(r)
  }

  lemma SameTallies(c: Config, deq: seq<CPc>, i: nat, q: CPc)
    requires E.Sane(c) && i < |deq| && SameClass(deq[i], q)
    ensures forall k: nat ::
              && In(c, deq[i := q], k, Past) == In(c, deq, k, Past) &&
                In(c, deq[i := q], k, Closing) == In(c, deq, k, Closing)
              && Live(c, deq[i := q], k) == Live(c, deq, k) && Owned(c, deq[i := q], k) == Owned(c, deq, k)
  {
    forall k: nat
      ensures In(c, deq[i := q], k, Past) == In(c, deq, k, Past) &&
        In(c, deq[i := q], k, Closing) == In(c, deq, k, Closing)
      ensures Live(c, deq[i := q], k) == Live(c, deq, k) && Owned(c, deq[i := q], k) == Owned(c, deq, k)
    {
      InUpdate(c, deq, k, Past, i, q);
      InUpdate(c, deq, k, Closing, i, q);
      InUpdate(c, deq, k, Unlisted, i, q);
      InUpdate(c, deq, k, Returned, i, q);
    }
  }

  lemma ConsumersUpdate(c: Config, deq: seq<CPc>, headers: seq<Header>, a: Aux, a': Aux, vals: seq<Value>, i: nat,
                        q: CPc)
    requires E.Sane(c) && Consumers(c, deq, headers, a, vals) && i < |deq|
    requires a' == a.(seen := a'.seen) && (forall j | j in a.seen && j != i :: j in a'.seen && a'.seen[j] == a.seen[j])
    requires ConsumerOk(c, i, q, headers, a', vals[i])
    ensures Consumers(c, deq[i := q], headers, a', vals)
  {
    var deq' := deq[i := q];
    forall j | 0 <= j < |deq'|
      ensures ConsumerOk(c, j, deq'[j], headers, a', vals[j])
    {
      if j != i { assert ConsumerOk(c, j, deq[j], headers, a, vals[j]); }
    }
  }

  lemma KeepLook(c: Config, p: Prod, m: Mem, a: Aux, a': Aux, i: nat, q: CPc)
    requires E.Sane(c) && Inv(c, p, m, a) && i < |p.deq| <= |p.vals| && SameClass(p.deq[i], q)
    requires var d := p.deq[i := q]; Unread(d, i) ==> Unread(p.deq, i)
    requires a' == a.(seen := a'.seen) && (forall j | j in a.seen && j != i :: j in a'.seen && a'.seen[j] == a.seen[j])
    requires ConsumerOk(c, i, q, p.headers, a', p.vals[i])
    ensures Inv(c, Goto(p, i, q), m, a')
  {
    hide HeadersInv, HeaderOk, KeyInv, ShownInv, Shape, Stored, Live, Owned, In, Consumers, ConsumerOk, FrontInv,
      TailInv, Covers;
    SameTallies(c, p.deq, i, q);
    KnowPublish(c, p, m, a);
    ConsumersUpdate(c, p.deq, p.headers, a, a', p.vals, i, q);
    BooksSame(c, p, m, a, p.deq[i := q]);
    MemUpdate(c, m.data, p.vals, p.ppc, a.fills, p.deq, i, q);
  }

  lemma BooksSame(c: Config, p: Prod, m: Mem, a: Aux, deq: seq<CPc>)
    requires E.Sane(c) && p.headers != [] && a.views != []
    requires forall k: nat ::
               && In(c, deq, k, Past) == In(c, p.deq, k, Past) && In(c, deq, k, Closing) == In(c, p.deq, k, Closing)
               && Live(c, deq, k) == Live(c, p.deq, k) && Owned(c, deq, k) == Owned(c, p.deq, k)
    requires LiveInv(c, p.entries, a.ents, a.fills, p.deq, Last(p), LastView(a)) &&
      ShownInv(c, p.entries, a.ents, a.fills, p.deq)
    requires CountInv(c, m.count, a.fills, p.deq, p.ppc) && OwnInv(c, a.fills, p.deq, p.ppc)
    ensures LiveInv(c, p.entries, a.ents, a.fills, deq, Last(p), LastView(a)) &&
      ShownInv(c, p.entries, a.ents, a.fills, deq)
    ensures CountInv(c, m.count, a.fills, deq, p.ppc) && OwnInv(c, a.fills, deq, p.ppc)
  {
    ShownKept(c, p.entries, p.entries, a.ents, a.ents, a.fills, p.deq, deq);
    hide Live, Owned, In, Covers, ShownInv;
  }

  lemma MemUpdate(c: Config, data: map<(Block, nat), Value>, vals: seq<Value>, p: PPc, fills: seq<Block>, deq: seq<CPc>,
                  i: nat, q: CPc)
    requires E.Sane(c) && MemInv(c, data, vals, p, fills, deq) && i < |deq|
    requires var d := deq[i := q]; Unread(d, i) ==> Unread(deq, i)
    ensures MemInv(c, data, vals, p, fills, deq[i := q])
  {
    hide Stored, Unread;
    UnreadUpdate(deq, i, q);
  }

  lemma UnreadUpdate(deq: seq<CPc>, i: nat, q: CPc)
    requires i < |deq|
    ensures forall j: nat | j != i :: Unread(deq[i := q], j) == Unread(deq, j)
  {
  }

  lemma KnowConsumer(c: Config, p: Prod, m: Mem, a: Aux, i: nat)
    requires E.Sane(c) && Inv(c, p, m, a) && i < |p.deq|
    ensures |p.deq| <= |p.vals| && ConsumerOk(c, i, p.deq[i], p.headers, a, p.vals[i])
    ensures CountInv(c, m.count, a.fills, p.deq, p.ppc)
  {
  }

  lemma KeepClaim(c: Config, p: Prod, m: Mem, a: Aux)
    requires E.Sane(c) && Inv(c, p, m, a)
    ensures Inv(c, Claim(p), m, a)
  {
    hide HeadersInv, HeaderOk, KeyInv, Shape, Stored, FrontInv, TailInv, LiveInv, ShownInv, CountInv, OwnInv;
    if |p.deq| < |p.vals| {
      var deq' := p.deq + [LoadIndex];
      forall k: nat
        ensures In(c, deq', k, Past) == In(c, p.deq, k, Past) && In(c, deq', k, Closing) == In(c, p.deq, k, Closing)
        ensures Live(c, deq', k) == Live(c, p.deq, k) && Owned(c, deq', k) == Owned(c, p.deq, k)
      {
        TallyPush(p.deq, k * c.B, k * c.B + c.B, Past, LoadIndex);
        TallyPush(p.deq, k * c.B, k * c.B + c.B, Closing, LoadIndex);
        TallyPush(p.deq, k * c.B, k * c.B + c.B, Unlisted, LoadIndex);
        TallyPush(p.deq, k * c.B, k * c.B + c.B, Returned, LoadIndex);
      }
      KnowPublish(c, p, m, a);
      BooksSame(c, p, m, a, deq');
    }
  }

  lemma KeepLoadIndex(c: Config, p: Prod, m: Mem, a: Aux, i: nat)
    requires E.Sane(c) && Inv(c, p, m, a) && Shape(p) && i < |p.deq| && p.deq[i].LoadIndex?
    ensures Consumed(c, p, m, i).1 == m && Inv(c, Consumed(c, p, m, i).0, m, a)
  {
    hide HeadersInv, HeaderOk, KeyInv, ShownInv, CountInv, OwnInv, MemInv, Consumers, Shape, Live, Owned, In, TailInv;
    KnowConsumer(c, p, m, a, i);
    Uncounted(c, m.count, a.fills, p.deq, p.ppc, i);
    KeepLook(c, p, m, a, a, i, LoadTail(|p.headers| - 1));
  }

  lemma KeepLoadTail(c: Config, p: Prod, m: Mem, a: Aux, i: nat) returns (a': Aux)
    requires E.Sane(c) && Inv(c, p, m, a) && Shape(p) && i < |p.deq| && p.deq[i].LoadTail?
    ensures Consumed(c, p, m, i).1 == m && Inv(c, Consumed(c, p, m, i).0, m, a')
    ensures a'.fills == a.fills
  {
    hide HeadersInv, KeyInv, ShownInv, CountInv, OwnInv, MemInv, Consumers, Shape, Live, Owned, In, TailInv, FrontInv,
      LiveInv;
    KnowConsumer(c, p, m, a, i);
    var h := p.deq[i].h;
    KnowAny(c, p, m, a, h);
    var n := a.views[h].vis - 1;
    a' := a.(seen := a.seen[i := n]);
    KeepLook(c, p, m, a, a', i, LoadKey(h, p.headers[h].tail));
  }

  lemma KnowAny(c: Config, p: Prod, m: Mem, a: Aux, h: nat)
    requires E.Sane(c) && Inv(c, p, m, a) && h < |p.headers|
    ensures |a.views| == |p.headers| && HeaderOk(c, p.headers[h], a.views[h], a.ents, |p.entries|)
  {
    hide HeaderOk, FrontInv, KeyInv, LiveInv, ShownInv, CountInv, OwnInv, MemInv, Consumers;
  }

  lemma KeepLoadKey(c: Config, p: Prod, m: Mem, a: Aux, i: nat)
    requires E.Sane(c) && Inv(c, p, m, a) && Shape(p) && i < |p.deq| && p.deq[i].LoadKey?
    ensures Consumed(c, p, m, i).1 == m && Inv(c, Consumed(c, p, m, i).0, m, a)
  {
    KnowConsumer(c, p, m, a, i);
    Uncounted(c, m.count, a.fills, p.deq, p.ppc, i);
    var h, t, k := p.deq[i].h, p.deq[i].t, E.Num(c, i);
    KnowAny(c, p, m, a, h);
    var H, n := p.headers[h], a.seen[i];
    KnowKey(c, p.entries, a.ents, a.fills, p.deq, Last(p), LastView(a), k, n);
    E.SlotRight(c, H.cap, a.views[h].off, i, n);
    hide HeadersInv, KeyInv, CountInv, OwnInv, MemInv, Consumers, Shape, Live, Owned, In, TailInv, FrontInv, LiveInv,
      ShownInv, HeaderOk;
    KeepLook(c, p, m, a, a, i, LoadValue(a.ents[k]));
  }

  /** Keys from a live block's number on have not been overwritten. */
  lemma KnowKey(c: Config, entries: seq<Entry>, ents: seq<nat>, fills: seq<Block>, deq: seq<CPc>, H: Header, w: View,
                k: nat, n: nat)
    requires E.Sane(c) && KeyInv(c, entries, ents, H, w) && LiveInv(c, entries, ents, fills, deq, H, w)
    requires k < |fills| && Live(c, deq, k) && k <= n < |ents|
    ensures ents[n] < |entries| && entries[ents[n]].key == n * c.B % c.W
  {
    assert Covers(H, w, |ents|, k);
    assert Covers(H, w, |ents|, n);
  }

  lemma KeepLoadValue(c: Config, p: Prod, m: Mem, a: Aux, i: nat)
    requires E.Sane(c) && Inv(c, p, m, a) && Shape(p) && i < |p.deq| && p.deq[i].LoadValue?
    ensures Consumed(c, p, m, i).1 == m && Inv(c, Consumed(c, p, m, i).0, m, a)
  {
    KnowConsumer(c, p, m, a, i);
    Uncounted(c, m.count, a.fills, p.deq, p.ppc, i);
    hide HeadersInv, KeyInv, ShownInv, CountInv, OwnInv, MemInv, Consumers, Shape, Live, Owned, In, TailInv, FrontInv,
      HeaderOk;
    var k := E.Num(c, i);
    KeepLook(c, p, m, a, a, i, Read(a.ents[k], a.fills[k]));
  }

  lemma KeepRead(c: Config, p: Prod, m: Mem, a: Aux, i: nat)
    requires E.Sane(c) && Inv(c, p, m, a) && Shape(p) && i < |p.deq| && p.deq[i].Read?
    ensures Consumed(c, p, m, i).1 == m && Inv(c, Consumed(c, p, m, i).0, m, a)
  {
    KnowConsumer(c, p, m, a, i);
    hide HeadersInv, KeyInv, CountInv, OwnInv, Consumers, Shape, Live, Owned, In, TailInv, FrontInv, LiveInv, ShownInv,
      HeaderOk;
    assert Stored(c, m.data, a.fills, i, p.vals[i]);
    var q := p.deq[i];
    KeepLook(c, p, m, a, a, i, Count(q.e, q.b, p.vals[i]));
  }

  lemma CountUp(c: Config, count: map<Block, nat>, fills: seq<Block>, deq: seq<CPc>, p: PPc, i: nat, q: CPc)
    requires E.Sane(c) && CountInv(c, count, fills, deq, p) && OwnInv(c, fills, deq, p)
    requires i < |deq| && deq[i].Count? && E.Num(c, i) < |fills|
    requires var b := fills[E.Num(c, i)];
      b in count && ((count[b] == c.B - 1 && q.Null?) || (count[b] != c.B - 1 && q == Done(deq[i].x, false)))
    ensures var b := fills[E.Num(c, i)]; count[b] < c.B && CountInv(c, count[b := count[b] + 1], fills, deq[i := q], p)
    ensures OwnInv(c, fills, deq[i := q], p) && forall k: nat :: Live(c, deq[i := q], k) == Live(c, deq, k)
  {
    var k, deq' := E.Num(c, i), deq[i := q];
    Uncounted(c, count, fills, deq, p, i);
    forall l: nat
      ensures In(c, deq', l, Past) == In(c, deq, l, Past) + (if l == k then 1 else 0)
      ensures In(c, deq', l, Closing) == In(c, deq, l, Closing) + (if l == k && q.Null? then 1 else 0)
      ensures Live(c, deq', l) == Live(c, deq, l) && Owned(c, deq', l) == Owned(c, deq, l)
    {
      InUpdate(c, deq, l, Past, i, q);
      InUpdate(c, deq, l, Closing, i, q);
      InUpdate(c, deq, l, Unlisted, i, q);
      InUpdate(c, deq, l, Returned, i, q);
    }
    CountUpParts(c, count, fills, deq, deq', p, k);
  }

  lemma CountUpParts(c: Config, count: map<Block, nat>, fills: seq<Block>, deq: seq<CPc>, deq': seq<CPc>, p: PPc,
                     k: nat)
    requires E.Sane(c) && CountInv(c, count, fills, deq, p) && OwnInv(c, fills, deq, p) && k < |fills| &&
      Owned(c, deq, k)
    requires In(c, deq, k, Closing) == 0
    requires forall l: nat ::
               && In(c, deq', l, Past) == In(c, deq, l, Past) + (if l == k then 1 else 0)
               && In(c, deq', l, Closing) == In(c, deq, l, Closing) + (if l == k && In(c, deq, k, Past) == c.B - 1
                 then 1 else 0)
               && Owned(c, deq', l) == Owned(c, deq, l)
    ensures var b := fills[k]; b in count && CountInv(c, count[b := count[b] + 1], fills, deq', p)
    ensures OwnInv(c, fills, deq', p)
  {
    hide In, Owned;
  }

  lemma KeepCount(c: Config, p: Prod, m: Mem, a: Aux, i: nat)
    requires E.Sane(c) && Inv(c, p, m, a) && Shape(p) && i < |p.deq| && p.deq[i].Count?
    ensures Inv(c, Consumed(c, p, m, i).0, Consumed(c, p, m, i).1, a)
  {
    hide HeadersInv, HeaderOk, KeyInv, ShownInv, Shape, Stored, Live, Owned, In, Consumers, FrontInv, TailInv, Covers,
      MemInv, OwnInv, CountInv;
    KnowConsumer(c, p, m, a, i);
    KnowCount(c, m.count, a.fills, p.deq, p.ppc, i);
    var p' := Consumed(c, p, m, i).0;
    var q := p'.deq[i];
    CountUp(c, m.count, a.fills, p.deq, p.ppc, i, q);
    KnowPublish(c, p, m, a);
    ShownKept(c, p.entries, p.entries, a.ents, a.ents, a.fills, p.deq, p'.deq);
    ConsumersUpdate(c, p.deq, p.headers, a, a, p.vals, i, q);
    MemUpdate(c, m.data, p.vals, p.ppc, a.fills, p.deq, i, q);
  }

  lemma KnowCount(c: Config, count: map<Block, nat>, fills: seq<Block>, deq: seq<CPc>, p: PPc, i: nat)
    requires E.Sane(c) && CountInv(c, count, fills, deq, p) && i < |deq| && !Past(deq[i]) && E.Num(c, i) < |fills|
    ensures fills[E.Num(c, i)] in count && count[fills[E.Num(c, i)]] < c.B
  {
    Uncounted(c, count, fills, deq, p, i);
  }

  /** The block leaves the index; no other block shares its entry. */
  lemma Unlist(c: Config, entries: seq<Entry>, ents: seq<nat>, fills: seq<Block>, deq: seq<CPc>, deq': seq<CPc>,
               H: Header, w: View, ne: nat, k: nat)
    requires E.Sane(c) && HeaderOk(c, H, w, ents, ne) && |fills| <= w.vis && k < |fills| && Live(c, deq, k) &&
      !Live(c, deq', k)
    requires KeyInv(c, entries, ents, H, w) && LiveInv(c, entries, ents, fills, deq, H, w)
    requires forall l: nat | l != k :: Live(c, deq', l) == Live(c, deq, l)
    ensures ents[k] < |entries|
    ensures var entries' := entries[ents[k] := entries[ents[k]].(value := None)];
            KeyInv(c, entries', ents, H, w) && LiveInv(c, entries', ents, fills, deq', H, w)
  {
    hide Live;
    var e := ents[k];
    assert Covers(H, w, |ents|, k);
    forall l: nat | l < |fills| && l != k && Live(c, deq, l)
      ensures ents[l] != e
    {
      assert Covers(H, w, |ents|, l);
      if l < k { E.SlotsDiffer(w.off, H.cap, l, k); } else { E.SlotsDiffer(w.off, H.cap, k, l); }
    }
  }

  lemma KeepNull(c: Config, p: Prod, m: Mem, a: Aux, i: nat)
    requires E.Sane(c) && Inv(c, p, m, a) && Shape(p) && i < |p.deq| && p.deq[i].Null?
    ensures Consumed(c, p, m, i).1 == m && Inv(c, Consumed(c, p, m, i).0, m, a)
  {
    hide HeadersInv, HeaderOk, KeyInv, LiveInv, ShownInv, Shape, Stored, Live, Owned, In, Consumers, TailInv, MemInv,
      OwnInv, CountInv;
    KnowConsumer(c, p, m, a, i);
    KnowHeader(c, p, m, a);
    var k, q := E.Num(c, i), Give(p.deq[i].b, p.deq[i].x);
    var deq' := p.deq[i := q];
    NotUnlisted(c, m.count, a.fills, p.deq, p.ppc, i);
    UnlistTallies(c, p.deq, i, q);
    Unlist(c, p.entries, a.ents, a.fills, p.deq, deq', Last(p), LastView(a), |p.entries|, k);
    ShownNull(c, p.entries, a.ents, a.fills, p.deq, deq', k);
    CountsSame(c, m.count, a.fills, p.deq, deq', p.ppc);
    ConsumersUpdate(c, p.deq, p.headers, a, a, p.vals, i, q);
    MemUpdate(c, m.data, p.vals, p.ppc, a.fills, p.deq, i, q);
  }

  lemma ShownNull(c: Config, entries: seq<Entry>, ents: seq<nat>, fills: seq<Block>, deq: seq<CPc>, deq': seq<CPc>,
                  k: nat)
    requires ShownInv(c, entries, ents, fills, deq) && k < |fills| <= |ents| && ents[k] < |entries|
    requires forall l: nat | l != k :: Live(c, deq', l) == Live(c, deq, l)
    ensures ShownInv(c, entries[ents[k] := entries[ents[k]].(value := None)], ents, fills, deq')
  {
    hide Live;
    var entries' := entries[ents[k] := entries[ents[k]].(value := None)];
    forall e, b | Shows(entries', e, b)
      ensures exists l :: ShownAs(c, ents, fills, deq', l, e, b)
    {
      assert Shows(entries, e, b);
      var l :| ShownAs(c, ents, fills, deq, l, e, b);
      assert ShownAs(c, ents, fills, deq', l, e, b);
    }
  }

  lemma UnlistTallies(c: Config, deq: seq<CPc>, i: nat, q: CPc)
    requires E.Sane(c) && i < |deq| && deq[i].Null? && q.Give?
    ensures forall k: nat ::
              && In(c, deq[i := q], k, Past) == In(c, deq, k, Past) &&
                In(c, deq[i := q], k, Closing) == In(c, deq, k, Closing)
              && Owned(c, deq[i := q], k) == Owned(c, deq, k)
    ensures forall k: nat | k != E.Num(c, i) :: Live(c, deq[i := q], k) == Live(c, deq, k)
    ensures !Live(c, deq[i := q], E.Num(c, i))
  {
    forall k: nat
      ensures In(c, deq[i := q], k, Past) == In(c, deq, k, Past) &&
        In(c, deq[i := q], k, Closing) == In(c, deq, k, Closing)
      ensures Owned(c, deq[i := q], k) == Owned(c, deq, k)
      ensures In(c, deq[i := q], k, Unlisted) == In(c, deq, k, Unlisted) + (if k == E.Num(c, i) then 1 else 0)
    {
      InUpdate(c, deq, k, Past, i, q);
      InUpdate(c, deq, k, Closing, i, q);
      InUpdate(c, deq, k, Unlisted, i, q);
      InUpdate(c, deq, k, Returned, i, q);
    }
    InUpdate(c, deq, E.Num(c, i), Unlisted, i, q);
  }

  lemma CountsSame(c: Config, count: map<Block, nat>, fills: seq<Block>, deq: seq<CPc>, deq': seq<CPc>, p: PPc)
    requires E.Sane(c) && CountInv(c, count, fills, deq, p) && OwnInv(c, fills, deq, p)
    requires forall k: nat ::
               && In(c, deq', k, Past) == In(c, deq, k, Past) && In(c, deq', k, Closing) == In(c, deq, k, Closing)
               && (Owned(c, deq', k) ==> Owned(c, deq, k))
    ensures CountInv(c, count, fills, deq', p) && OwnInv(c, fills, deq', p)
  {
    hide In, Owned;
  }

  lemma KeepGive(c: Config, p: Prod, m: Mem, a: Aux, i: nat)
    requires E.Sane(c) && Inv(c, p, m, a) && Shape(p) && i < |p.deq| && p.deq[i].Give?
    ensures Consumed(c, p, m, i).1 == m && Inv(c, Consumed(c, p, m, i).0, m, a)
  {
    hide HeadersInv, HeaderOk, KeyInv, ShownInv, Shape, Stored, Live, Owned, In, Consumers, FrontInv, TailInv, Covers,
      MemInv, OwnInv, CountInv;
    KnowConsumer(c, p, m, a, i);
    var q := Done(p.deq[i].x, true);
    var deq' := p.deq[i := q];
    ReturnTallies(c, p.deq, i, q);
    KnowPublish(c, p, m, a);
    ShownKept(c, p.entries, p.entries, a.ents, a.ents, a.fills, p.deq, deq');
    CountsSame(c, m.count, a.fills, p.deq, deq', p.ppc);
    ConsumersUpdate(c, p.deq, p.headers, a, a, p.vals, i, q);
    MemUpdate(c, m.data, p.vals, p.ppc, a.fills, p.deq, i, q);
  }

  lemma ReturnTallies(c: Config, deq: seq<CPc>, i: nat, q: CPc)
    requires E.Sane(c) && i < |deq| && deq[i].Give? && q.Done? && q.last
    ensures forall k: nat ::
              && In(c, deq[i := q], k, Past) == In(c, deq, k, Past) &&
                In(c, deq[i := q], k, Closing) == In(c, deq, k, Closing)
              && Live(c, deq[i := q], k) == Live(c, deq, k)
              && (Owned(c, deq[i := q], k) <==> Owned(c, deq, k) && k != E.Num(c, i))
  {
    forall k: nat
      ensures In(c, deq[i := q], k, Past) == In(c, deq, k, Past) &&
        In(c, deq[i := q], k, Closing) == In(c, deq, k, Closing)
      ensures Live(c, deq[i := q], k) == Live(c, deq, k)
      ensures In(c, deq[i := q], k, Returned) == In(c, deq, k, Returned) + (if k == E.Num(c, i) then 1 else 0)
    {
      InUpdate(c, deq, k, Past, i, q);
      InUpdate(c, deq, k, Closing, i, q);
      InUpdate(c, deq, k, Unlisted, i, q);
      InUpdate(c, deq, k, Returned, i, q);
    }
  }

  // ---------------------------------------------------------------- one producer among others

  /** Block b belongs to this producer: requisitioned, and not yet given back. */
  ghost predicate Holds(c: Config, p: Prod, a: Aux, b: Block) {
    || ((p.ppc.Reset? || p.ppc.PutValue?) && p.ppc.b == b)
    || exists k :: HeldAs(c, p.deq, a.fills, k, b)
  }

  ghost predicate HeldAs(c: Config, deq: seq<CPc>, fills: seq<Block>, k: int, b: Block) {
    0 <= k < |fills| && fills[k] == b && Owned(c, deq, k)
  }

  /** Block b is as it was. */
  ghost predicate Same(m: Mem, m': Mem, b: Block) {
    && (b in m.count ==> b in m'.count && m'.count[b] == m.count[b])
    && forall j: nat | (b, j) in m.data :: (b, j) in m'.data && m'.data[(b, j)] == m.data[(b, j)]
  }

  /** What happens to other blocks does not matter. */
  lemma Frame(c: Config, p: Prod, m: Mem, m': Mem, a: Aux)
    requires E.Sane(c) && Inv(c, p, m, a)
    requires forall b: Block | Holds(c, p, a, b) :: Same(m, m', b)
    ensures Inv(c, p, m', a)
  {
    hide HeadersInv, HeaderOk, KeyInv, LiveInv, ShownInv, Consumers, FrontInv, TailInv, OwnInv, MemInv, CountInv,
      Holds, Same;
    OwnedHeld(c, p, a);
    FrameCount(c, p, m, m', a);
    FrameMem(c, p, m, m', a);
  }

  lemma OwnedHeld(c: Config, p: Prod, a: Aux)
    ensures forall k | 0 <= k < |a.fills| && Owned(c, p.deq, k) :: Holds(c, p, a, a.fills[k])
    ensures p.ppc.Reset? || p.ppc.PutValue? ==> Holds(c, p, a, p.ppc.b)
  {
    forall k | 0 <= k < |a.fills| && Owned(c, p.deq, k)
      ensures Holds(c, p, a, a.fills[k])
    {
      assert HeldAs(c, p.deq, a.fills, k, a.fills[k]);
    }
  }

  lemma FrameCount(c: Config, p: Prod, m: Mem, m': Mem, a: Aux)
    requires E.Sane(c) && CountInv(c, m.count, a.fills, p.deq, p.ppc)
    requires forall k | 0 <= k < |a.fills| && Owned(c, p.deq, k) :: Holds(c, p, a, a.fills[k])
    requires p.ppc.Reset? || p.ppc.PutValue? ==> Holds(c, p, a, p.ppc.b)
    requires forall b: Block | Holds(c, p, a, b) :: Same(m, m', b)
    ensures CountInv(c, m'.count, a.fills, p.deq, p.ppc)
  {
    hide Owned, In, Holds;
  }

  lemma FrameMem(c: Config, p: Prod, m: Mem, m': Mem, a: Aux)
    requires E.Sane(c) && MemInv(c, m.data, p.vals, p.ppc, a.fills, p.deq) &&
      CountInv(c, m.count, a.fills, p.deq, p.ppc)
    requires TailInv(c, |p.vals|, |a.fills|, p.ppc)
    requires forall k | 0 <= k < |a.fills| && Owned(c, p.deq, k) :: Holds(c, p, a, a.fills[k])
    requires forall b: Block | Holds(c, p, a, b) :: Same(m, m', b)
    ensures MemInv(c, m'.data, p.vals, p.ppc, a.fills, p.deq)
  {
    hide CountInv, Owned, In, Holds;
    forall i | 0 <= i < |p.vals| && Unread(p.deq, i)
      ensures Stored(c, m'.data, a.fills, i, p.vals[i])
    {
      Uncounted(c, m.count, a.fills, p.deq, p.ppc, i);
      assert Stored(c, m.data, a.fills, i, p.vals[i]);
    }
    if p.ppc.Publish? { Uncounted(c, m.count, a.fills, p.deq, p.ppc, |p.vals|); }
  }

  lemma KeepProduced(c: Config, p: Prod, m: Mem, a: Aux, ok: bool, block: Option<Block>) returns (a': Aux)
    requires E.Sane(c) && Inv(c, p, m, a) && Shape(p)
    requires p.ppc.Take? && block.Some? ==> !Holds(c, p, a, block.value)
    ensures Inv(c, Produced(c, p, m, ok, block).0, Produced(c, p, m, ok, block).1, a')
    ensures a'.fills == if p.ppc.PutValue? then a.fills + [p.ppc.b] else a.fills
  {
    a' := a;
    match p.ppc
    case Ready =>
    case Room(_) => KeepRoom(c, p, m, a, ok, block);
    case Insert(_) => KeepRoom(c, p, m, a, ok, block);
    case Grow(_) => a' := KeepGrow(c, p, m, a, ok, block);
    case PutKey(_, _) => a' := KeepPutKey(c, p, m, a, ok, block);
    case PutTail(_, _) => a' := KeepPutTail(c, p, m, a, ok, block);
    case Take(_, _) =>
      if block.Some? { NotHeld(c, p, a, block.value); }
      KeepTake(c, p, m, a, ok, block);
    case Rewind(_, _) => a' := KeepRewind(c, p, m, a, ok, block);
    case Clear(_, _) => KeepClear(c, p, m, a, ok, block);
    case Reset(_, _, _) => KeepReset(c, p, m, a, ok, block);
    case PutValue(_, _, _) => a' := KeepPutValue(c, p, m, a, ok, block);
    case Construct(_) => KeepConstruct(c, p, m, a, ok, block);
    case Publish(_) => KeepPublish(c, p, m, a, ok, block);
  }

  lemma NotHeld(c: Config, p: Prod, a: Aux, b: Block)
    requires !Holds(c, p, a, b)
    ensures forall k | 0 <= k < |a.fills| && Owned(c, p.deq, k) :: a.fills[k] != b
  {
    forall k | 0 <= k < |a.fills| && Owned(c, p.deq, k)
      ensures a.fills[k] != b
    {
      if a.fills[k] == b { assert HeldAs(c, p.deq, a.fills, k, b); }
    }
  }

  lemma KeepConsumed(c: Config, p: Prod, m: Mem, a: Aux, i: nat) returns (a': Aux)
    requires E.Sane(c) && Inv(c, p, m, a) && Shape(p)
    ensures Inv(c, Consumed(c, p, m, i).0, Consumed(c, p, m, i).1, a') && a'.fills == a.fills
  {
    a' := a;
    if i < |p.deq| {
      match p.deq[i]
      case LoadIndex => KeepLoadIndex(c, p, m, a, i);
      case LoadTail(_) => a' := KeepLoadTail(c, p, m, a, i);
      case LoadKey(_, _) => KeepLoadKey(c, p, m, a, i);
      case LoadValue(_) => KeepLoadValue(c, p, m, a, i);
      case Read(_, _) => KeepRead(c, p, m, a, i);
      case Count(_, _, _) => KeepCount(c, p, m, a, i);
      case Null(_, _, _) => KeepNull(c, p, m, a, i);
      case Give(_, _) => KeepGive(c, p, m, a, i);
      case Done(_, _) =>
    }
  }

  lemma OwnedSame(c: Config, deq: seq<CPc>, i: nat, q: CPc)
    requires E.Sane(c) && i < |deq| && Returned(deq[i]) == Returned(q)
    ensures forall k: nat :: Owned(c, deq[i := q], k) == Owned(c, deq, k)
  {
    forall k: nat
      ensures Owned(c, deq[i := q], k) == Owned(c, deq, k)
    {
      InUpdate(c, deq, k, Returned, i, q);
    }
  }

  lemma HeldSame(c: Config, deq: seq<CPc>, deq': seq<CPc>, fills: seq<Block>, b: Block)
    requires forall k: nat :: Owned(c, deq', k) == Owned(c, deq, k)
    ensures (exists k :: HeldAs(c, deq', fills, k, b)) <==> (exists k :: HeldAs(c, deq, fills, k, b))
  {
    if k :| HeldAs(c, deq, fills, k, b) { assert HeldAs(c, deq', fills, k, b); }
    if k :| HeldAs(c, deq', fills, k, b) { assert HeldAs(c, deq, fills, k, b); }
  }

  /** The producer comes to hold what requisition_block gives it, and writes to nothing it does not hold. */
  lemma ProducedHolds(c: Config, p: Prod, m: Mem, a: Aux, a': Aux, ok: bool, block: Option<Block>, b: Block)
    requires E.Sane(c) && Inv(c, p, m, a) && Shape(p)
    requires a'.fills == if p.ppc.PutValue? then a.fills + [p.ppc.b] else a.fills
    ensures var (p', m') := Produced(c, p, m, ok, block);
            && (Holds(c, p', a', b) <==> Holds(c, p, a, b) || (p.ppc.Take? && block == Some(b)))
            && (!Holds(c, p, a, b) ==> Same(m, m', b))
  {
    hide HeadersInv, HeaderOk, KeyInv, LiveInv, ShownInv, Consumers, CountInv, MemInv, Shape, Owned;
    var (p', m') := Produced(c, p, m, ok, block);
    if p.ppc.PutValue? {
      KnowUnclaimed(c, p, m, a);
      var n := |a.fills|;
      if k :| HeldAs(c, p.deq, a.fills, k, b) { assert HeldAs(c, p'.deq, a'.fills, k, b); }
      if k :| HeldAs(c, p'.deq, a'.fills, k, b) && k != n { assert HeldAs(c, p.deq, a.fills, k, b); }
      assert HeldAs(c, p'.deq, a'.fills, n, p.ppc.b);
    } else if p.ppc.Construct? {
      KnowWritable(c, p, m, a);
    }
  }

  lemma KnowUnclaimed(c: Config, p: Prod, m: Mem, a: Aux)
    requires E.Sane(c) && Inv(c, p, m, a) && p.ppc.PutValue?
    ensures Owned(c, p.deq, |a.fills|) && |a.ents| == |a.fills| + 1 && p.ppc.e < |p.entries|
  {
    BlockStart(c, |p.vals|, |a.fills|);
    NobodyYet(c, p.deq, |a.fills|, Returned);
  }

  /** The block about to be written to is the newest one, has not been given back, and its slot is free. */
  lemma KnowWritable(c: Config, p: Prod, m: Mem, a: Aux)
    requires E.Sane(c) && Inv(c, p, m, a) && p.ppc.Construct?
    ensures p.tailBlock.Some? && Holds(c, p, a, p.tailBlock.value) && Live(c, p.deq, |a.fills| - 1) && |a.fills| > 0
    ensures a.fills[|a.fills| - 1] == p.tailBlock.value && E.Num(c, |p.vals|) == |a.fills| - 1
  {
    Uncounted(c, m.count, a.fills, p.deq, p.ppc, |p.vals|);
    assert HeldAs(c, p.deq, a.fills, |a.fills| - 1, p.tailBlock.value);
  }

  lemma ConsumedHolds(c: Config, p: Prod, m: Mem, a: Aux, a': Aux, i: nat, b: Block)
    requires E.Sane(c) && Inv(c, p, m, a) && Shape(p) && a'.fills == a.fills
    ensures var (p', m') := Consumed(c, p, m, i);
            && (Holds(c, p', a', b) <==> Holds(c, p, a, b) && !(i < |p.deq| && p.deq[i].Give? && p.deq[i].b == b))
            && (!Holds(c, p, a, b) ==> Same(m, m', b))
            && (i < |p.deq| && p.deq[i].Give? ==> Holds(c, p, a, p.deq[i].b))
  {
    hide HeadersInv, HeaderOk, KeyInv, LiveInv, ShownInv, Consumers, CountInv, MemInv, Shape, FrontInv, TailInv, Owned,
      OwnInv;
    var (p', m') := Consumed(c, p, m, i);
    if i < |p.deq| {
      KnowConsumer(c, p, m, a, i);
      if p.deq[i].Give? {
        GiveHolds(c, p, m, a, i, b);
      } else {
        OwnedSame(c, p.deq, i, p'.deq[i]);
        HeldSame(c, p.deq, p'.deq, a.fills, b);
        if p.deq[i].Count? {
          Uncounted(c, m.count, a.fills, p.deq, p.ppc, i);
          assert HeldAs(c, p.deq, a.fills, E.Num(c, i), p.deq[i].b);
        }
      }
    }
  }

  lemma GiveHolds(c: Config, p: Prod, m: Mem, a: Aux, i: nat, b: Block)
    requires E.Sane(c) && Inv(c, p, m, a) && i < |p.deq| && p.deq[i].Give?
    ensures Holds(c, p, a, p.deq[i].b)
    ensures Holds(c, Goto(p, i, Done(p.deq[i].x, true)), a, b) <==> Holds(c, p, a, b) && b != p.deq[i].b
  {
    hide HeadersInv, HeaderOk, KeyInv, LiveInv, ShownInv, Consumers, CountInv, MemInv, Shape, FrontInv, TailInv, Owned;
    KnowConsumer(c, p, m, a, i);
    NotReturned(c, m.count, a.fills, p.deq, p.ppc, i);
    var k, q := E.Num(c, i), Done(p.deq[i].x, true);
    var deq' := p.deq[i := q];
    ReturnTallies(c, p.deq, i, q);
    assert HeldAs(c, p.deq, a.fills, k, p.deq[i].b);
    if l :| HeldAs(c, p.deq, a.fills, l, b) { assert l != k ==> HeldAs(c, deq', a.fills, l, b); }
    if l :| HeldAs(c, deq', a.fills, l, b) {
      assert HeldAs(c, p.deq, a.fills, l, b) && l != k;
    }
  }

  lemma ClaimHolds(c: Config, p: Prod, a: Aux)
    ensures forall b: Block :: Holds(c, Claim(p), a, b) <==> Holds(c, p, a, b)
  {
    var deq' := p.deq + [LoadIndex];
    forall k: nat
      ensures Owned(c, deq', k) == Owned(c, p.deq, k)
    {
      TallyPush(p.deq, k * c.B, k * c.B + c.B, Returned, LoadIndex);
    }
    forall b: Block
      ensures Holds(c, Claim(p), a, b) <==> Holds(c, p, a, b)
    {
      HeldSame(c, p.deq, deq', a.fills, b);
    }
  }

  /** Block b is being added, shown by the index, or on its way to the free list. */
  ghost predicate Uses(p: Prod, b: Block) {
    || ((p.ppc.Reset? || p.ppc.PutValue?) && p.ppc.b == b)
    || (exists e :: Shows(p.entries, e, b))
    || (exists i :: Giving(p.deq, i, b))
  }

  ghost predicate Giving(deq: seq<CPc>, i: int, b: Block) { 0 <= i < |deq| && deq[i].Give? && deq[i].b == b }

  lemma UsesHolds(c: Config, p: Prod, m: Mem, a: Aux, b: Block)
    requires E.Sane(c) && Inv(c, p, m, a)
    ensures Uses(p, b) <==> Holds(c, p, a, b)
  {
    if e :| Shows(p.entries, e, b) { ShownHeld(c, p, m, a, e, b); }
    if i :| Giving(p.deq, i, b) {
      hide HeadersInv, HeaderOk, KeyInv, LiveInv, ShownInv, MemInv, Shape, FrontInv, TailInv, OwnInv, Owned, CountInv;
      KnowConsumer(c, p, m, a, i);
      NotReturned(c, m.count, a.fills, p.deq, p.ppc, i);
      assert HeldAs(c, p.deq, a.fills, E.Num(c, i), b);
    }
    if k :| HeldAs(c, p.deq, a.fills, k, b) { HeldUsed(c, p, m, a, k, b); }
  }

  lemma ShownHeld(c: Config, p: Prod, m: Mem, a: Aux, e: int, b: Block)
    requires E.Sane(c) && Inv(c, p, m, a) && Shows(p.entries, e, b)
    ensures Holds(c, p, a, b)
  {
    hide HeadersInv, HeaderOk, KeyInv, LiveInv, MemInv, Shape, FrontInv, TailInv, OwnInv, Owned, CountInv, Live;
    var k :| ShownAs(c, a.ents, a.fills, p.deq, k, e, b);
    LiveOwned(c, p.deq, k);
    assert HeldAs(c, p.deq, a.fills, k, b);
  }

  lemma HeldUsed(c: Config, p: Prod, m: Mem, a: Aux, k: nat, b: Block)
    requires E.Sane(c) && Inv(c, p, m, a) && HeldAs(c, p.deq, a.fills, k, b)
    ensures Uses(p, b)
  {
    hide HeadersInv, HeaderOk, KeyInv, ShownInv, MemInv, Shape, FrontInv, TailInv, OwnInv, CountInv;
    if Live(c, p.deq, k) {
      assert Shows(p.entries, a.ents[k], b);
    } else {
      var lo, hi := k * c.B, k * c.B + c.B;
      TallyNone(p.deq, lo, hi, Unlisted);
      TallyNone(p.deq, lo, hi, Returned);
      var i: nat :| lo <= i < hi && i < |p.deq| && Unlisted(p.deq[i]);
      InRange(c, i, k);
      KnowConsumer(c, p, m, a, i);
      assert Giving(p.deq, i, b);
    }
  }

  /** What every state of a producer's run promises. */
  ghost predicate Sound(c: Config, p: Prod, m: Mem)
    requires E.Sane(c)
  {
    && (forall i | 0 <= i < |p.deq| :: DequeuerSound(c, p, m, i))
    && (forall k: nat ::
      In(c, p.deq, k, Closing) <= 1 && (In(c, p.deq, k, Closing) == 1 <==> In(c, p.deq, k, Past) == c.B))
    && (p.ppc.Construct? ==> p.tailBlock.Some? && Uses(p, p.tailBlock.value) && Live(c, p.deq, E.Num(c, |p.vals|)))
  }

  /** The assertion in a lookup: the entry at the tail that it starts from has a key. */
  ghost predicate TailKeyed(p: Prod, q: CPc)
    requires q.LoadKey?
  {
    && q.h < |p.headers| && q.t < |p.headers[q.h].slots|
    && var e := p.headers[q.h].slots[q.t];
    e < |p.entries| && p.entries[e].key != INVALID
  }

  lemma InvTailKeyed(c: Config, p: Prod, m: Mem, a: Aux, i: nat)
    requires E.Sane(c) && Inv(c, p, m, a) && i < |p.deq| && p.deq[i].LoadKey?
    ensures TailKeyed(p, p.deq[i])
  {
    hide HeadersInv, HeaderOk, ShownInv, Shape, FrontInv, OwnInv, TailInv, CountInv, Live, Owned, In;
    KnowConsumer(c, p, m, a, i);
    Uncounted(c, m.count, a.fills, p.deq, p.ppc, i);
    KnowKey(c, p.entries, a.ents, a.fills, p.deq, Last(p), LastView(a), E.Num(c, i), a.seen[i]);
    BaseValid(c, a.seen[i]);
  }

  /** No block starts at INVALID, in words either. */
  lemma BaseValid(c: Config, n: nat)
    requires E.Sane(c)
    ensures n * c.B % c.W != INVALID
  {
    var m, q := c.W / c.B, n * c.B / c.W;
    Multiple(n, c.B, m, q, c.W);
    ModPlus(0, c.B, n - q * m);
    ModSmall(0, c.B);
    ModSmall(1, c.B);
  }

  lemma Multiple(n: nat, b: nat, m: nat, q: nat, w: nat)
    requires w > 0 && b > 0 && w == m * b && q == n * b / w
    ensures n * b % w == 0 + (n - q * m) * b
  {
    assert n * b == w * q + n * b % w;
    assert w * q == (q * m) * b;
  }

  /** The assertion after new_block_index: the entry behind the tail of the new index is unused. */
  lemma GrowthUnused(c: Config, p: Prod, m: Mem, ok: bool, block: Option<Block>)
    requires E.Sane(c) && Shape(p) && p.ppc.Grow?
    ensures var p' := Produced(c, p, m, ok, block).0;
            p'.ppc.PutKey? ==>
              var H, e := Last(p'), p'.ppc.e;
              H.slots[(H.tail + 1) % H.cap] == e < |p'.entries| && p'.entries[e] == Entry(INVALID, None)
  {
    hide E.Sane;
    ModSmall(Last(p).cap, 2 * Last(p).cap);
  }

  /** A lookup finds its block, a result is the value enqueued, and no counter exceeds its block. */
  ghost predicate DequeuerSound(c: Config, p: Prod, m: Mem, i: nat)
    requires E.Sane(c) && i < |p.deq|
  {
    var q := p.deq[i];
    && i < |p.vals|
    && (q.LoadKey? ==> TailKeyed(p, q))
    && (q.LoadValue? ==>
      q.e < |p.entries| && p.entries[q.e] == Entry(E.Num(c, i) * c.B % c.W, p.entries[q.e].value) &&
      p.entries[q.e].value.Some?)
    && (q.Read? ==> (q.b, i % c.B) in m.data && m.data[(q.b, i % c.B)] == p.vals[i])
    && (q.Count? ==> q.x == p.vals[i] && q.b in m.count && m.count[q.b] < c.B)
    && (q.Done? ==> q.x == p.vals[i])
  }

  lemma InvSound(c: Config, p: Prod, m: Mem, a: Aux)
    requires E.Sane(c) && Inv(c, p, m, a)
    ensures Sound(c, p, m)
  {
    hide Inv, DequeuerSound, In, Live, Uses;
    forall i | 0 <= i < |p.deq|
      ensures DequeuerSound(c, p, m, i)
    {
      InvDequeuer(c, p, m, a, i);
    }
    forall k: nat
      ensures In(c, p.deq, k, Closing) <= 1 && (In(c, p.deq, k, Closing) == 1 <==> In(c, p.deq, k, Past) == c.B)
    {
      InvClosing(c, p, m, a, k);
    }
    if p.ppc.Construct? {
      KnowWritable(c, p, m, a);
      UsesHolds(c, p, m, a, p.tailBlock.value);
    }
  }

  lemma InvClosing(c: Config, p: Prod, m: Mem, a: Aux, k: nat)
    requires E.Sane(c) && Inv(c, p, m, a)
    ensures In(c, p.deq, k, Closing) <= 1 && (In(c, p.deq, k, Closing) == 1 <==> In(c, p.deq, k, Past) == c.B)
  {
    hide HeadersInv, HeaderOk, KeyInv, LiveInv, ShownInv, Shape, FrontInv, OwnInv, Owned, Stored;
    if k >= |a.fills| {
      Beyond(c, p, m, a, k);
      NobodyYet(c, p.deq, k, Closing);
      NobodyYet(c, p.deq, k, Past);
    }
  }

  /** No element is in a block not yet added. */
  lemma Beyond(c: Config, p: Prod, m: Mem, a: Aux, k: nat)
    requires E.Sane(c) && Inv(c, p, m, a) && k >= |a.fills|
    ensures |p.deq| <= k * c.B
  {
    hide HeadersInv, HeaderOk, KeyInv, LiveInv, ShownInv, Shape, FrontInv, OwnInv, Owned, Stored, CountInv;
    if |p.deq| > k * c.B {
      KnowConsumer(c, p, m, a, k * c.B);
      E.NumPos(c, k * c.B, k * c.B);
      InRange(c, k * c.B, k);
    }
  }

  lemma InvDequeuer(c: Config, p: Prod, m: Mem, a: Aux, i: nat)
    requires E.Sane(c) && Inv(c, p, m, a) && i < |p.deq|
    ensures DequeuerSound(c, p, m, i)
  {
    hide HeadersInv, HeaderOk, ShownInv, Shape, FrontInv, OwnInv, TailInv, CountInv, Live, Owned, In, TailKeyed;
    KnowConsumer(c, p, m, a, i);
    var q, k := p.deq[i], E.Num(c, i);
    if q.LoadKey? { InvTailKeyed(c, p, m, a, i); }
    if !Past(q) {
      Uncounted(c, m.count, a.fills, p.deq, p.ppc, i);
      KnowCount(c, m.count, a.fills, p.deq, p.ppc, i);
      KnowKey(c, p.entries, a.ents, a.fills, p.deq, Last(p), LastView(a), k, k);
    }
    if q.Read? { assert Stored(c, m.data, a.fills, i, p.vals[i]); }
  }

  // ---------------------------------------------------------------- how calls go on and end

  /** How many steps a dequeuer has ahead of it at most. */
  function Ahead(q: CPc): nat {
    match q
    case LoadIndex => 8
    case LoadTail(_) => 7
    case LoadKey(_, _) => 6
    case LoadValue(_) => 5
    case Read(_, _) => 4
    case Count(_, _, _) => 3
    case Null(_, _, _) => 2
    case Give(_, _) => 1
    case Done(_, _) => 0
  }

  /** What a dequeuer needs to look at is there. */
  lemma KnowLookup(c: Config, p: Prod, m: Mem, a: Aux, i: nat)
    requires E.Sane(c) && Inv(c, p, m, a) && Shape(p) && i < |p.deq|
    ensures var q := p.deq[i];
      && (q.LoadTail? ==> q.h < |p.headers|)
      && (q.LoadKey? ==> q.h < |p.headers| && q.t < p.headers[q.h].cap)
      && (q.Null? ==> q.e < |p.entries|)
  {
    hide Inv, In, Live, Covers, Owned, CountInv;
    KnowConsumer(c, p, m, a, i);
    if p.deq[i].Null? { NullListed(c, p, m, a, i); }
  }

  lemma NullListed(c: Config, p: Prod, m: Mem, a: Aux, i: nat)
    requires E.Sane(c) && Inv(c, p, m, a) && i < |p.deq| && p.deq[i].Null?
    ensures p.deq[i].e < |p.entries|
  {
    hide HeaderOk, ShownInv, Shape, FrontInv, OwnInv, TailInv, Stored, In, KeyInv, Covers, MemInv, LiveInv, Owned;
    KnowConsumer(c, p, m, a, i);
    NotUnlisted(c, m.count, a.fills, p.deq, p.ppc, i);
    ListedEntry(c, p, m, a, E.Num(c, i));
  }

  lemma ListedEntry(c: Config, p: Prod, m: Mem, a: Aux, k: nat)
    requires E.Sane(c) && Inv(c, p, m, a) && k < |a.fills| && Live(c, p.deq, k)
    ensures |a.fills| <= |a.ents| && a.ents[k] < |p.entries|
  {
    hide HeaderOk, ShownInv, FrontInv, OwnInv, TailInv, Stored, In, KeyInv, Covers, MemInv, Owned, Live, Consumers;
  }

  /** No dequeuer is ever stuck: each of its steps brings it nearer to its result. */
  lemma ConsumerNearer(c: Config, p: Prod, m: Mem, a: Aux, i: nat)
    requires E.Sane(c) && Inv(c, p, m, a) && Shape(p) && i < |p.deq| && !p.deq[i].Done?
    ensures var p' := Consumed(c, p, m, i).0; |p'.deq| == |p.deq| && Ahead(p'.deq[i]) < Ahead(p.deq[i])
  {
    hide Inv, E.Slot, E.Num, TailKeyed;
    InvDequeuer(c, p, m, a, i);
    KnowLookup(c, p, m, a, i);
  }

  /** Dequeuers do not disturb one another, nor the values. */
  lemma ConsumedOthers(c: Config, p: Prod, m: Mem, i: nat, j: nat)
    requires E.Sane(c) && Shape(p) && j < |p.deq| && j != i
    ensures var p' := Consumed(c, p, m, i).0;
      |p'.deq| == |p.deq| && p'.deq[j] == p.deq[j] && p'.vals == p.vals && p'.ppc == p.ppc
  {
    hide E.Slot, E.Sane;
  }

  lemma ConsumedSame(c: Config, p: Prod, m: Mem, i: nat)
    requires E.Sane(c) && Shape(p)
    ensures var p' := Consumed(c, p, m, i).0; |p'.deq| == |p.deq| && p'.vals == p.vals && p'.ppc == p.ppc
  {
    hide E.Slot, E.Sane;
  }

  /** What the producer's step does to its call and to the values. */
  lemma ProducedValues(c: Config, p: Prod, m: Mem, ok: bool, block: Option<Block>)
    requires E.Sane(c) && Shape(p)
    ensures var p' := Produced(c, p, m, ok, block).0;
      && p'.deq == p.deq
      && (p.ppc == Ready ==> p' == p)
      && (p.ppc != Ready && p'.ppc != Ready ==> p'.vals == p.vals && p'.ppc.v == p.ppc.v)
      && (p.ppc != Ready && p'.ppc == Ready ==> p'.vals == p.vals || p'.vals == p.vals + [p.ppc.v])
  {
    hide E.Sane, Grown;
  }

  /** The slot behind the tail is free, or the index may be doubled. */
  predicate RoomInIndex(c: Config, p: Prod)
    requires E.Sane(c) && Shape(p)
  {
    var L := Last(p);
    var x := p.entries[L.slots[(L.tail + 1) % L.cap]];
    x.key == INVALID || x.value.None? || (c.W / c.B) % (2 * L.cap) == 0
  }

  predicate GivingUp(p: PPc) { p.Rewind? || p.Clear? }

  /**
   A call of `enqueue` gives up only at the start of a block: at the end of the range of the index
   type, or if its index is full and cannot be doubled, or if there is no block.
   */
  lemma GivesUp(c: Config, p: Prod, m: Mem, a: Aux, ok: bool, block: Option<Block>)
    requires E.Sane(c) && Shape(p) && Inv(c, p, m, a) && p.ppc != Ready && !GivingUp(p.ppc)
    requires var p' := Produced(c, p, m, ok, block).0; GivingUp(p'.ppc) || (p'.ppc == Ready && p'.vals == p.vals)
    ensures |p.vals| % c.B == 0
    ensures match p.ppc
      case Room(_) => |p.vals| + c.B - |p.deq| >= c.W / 2
      case Grow(_) => !ok || (c.W / c.B) % (2 * Last(p).cap) != 0
      case Take(_, _) => block == None
      case _ => false
  {
    hide Inv, Grown, E.Num;
    KnowStart(c, p, m, a);
  }

  lemma KnowStart(c: Config, p: Prod, m: Mem, a: Aux)
    requires E.Sane(c) && Inv(c, p, m, a)
    ensures p.ppc.Room? || p.ppc.Insert? || p.ppc.Grow? || p.ppc.Take? ==> |p.vals| % c.B == 0
  {
    hide HeadersInv, FrontInv, KeyInv, LiveInv, ShownInv, CountInv, OwnInv, MemInv, Consumers, E.Num;
  }

  function Distance(p: PPc): nat {
    match p
    case Ready => 0
    case Room(_) => 12
    case Insert(_) => 11
    case Grow(_) => 10
    case PutKey(_, _) => 9
    case PutTail(_, _) => 8
    case Take(_, _) => 5
    case Reset(_, _, _) => 4
    case PutValue(_, _, _) => 3
    case Construct(_) => 2
    case Publish(_) => 1
    case Rewind(_, _) => 2
    case Clear(_, _) => 1
  }

  /** Nothing will stop the call from publishing, if it is given a block. */
  predicate WillDo(c: Config, p: Prod)
    requires E.Sane(c) && Shape(p)
  {
    && !GivingUp(p.ppc)
    && (p.ppc.Room? ==> |p.vals| + c.B - |p.deq| < c.W / 2)
    && (p.ppc.Room? || p.ppc.Insert? ==> RoomInIndex(c, p))
    && (p.ppc.Grow? ==> (c.W / c.B) % (2 * Last(p).cap) == 0)
  }

  ghost predicate Closer(c: Config, p: Prod, p': Prod)
    requires E.Sane(c) && Shape(p) && p.ppc != Ready
  {
    && Distance(p'.ppc) < Distance(p.ppc) && p'.deq == p.deq
    && if p'.ppc == Ready then p'.vals == p.vals + [p.ppc.v]
       else p'.vals == p.vals && p'.ppc.v == p.ppc.v && Shape(p') && WillDo(c, p')
  }

  lemma Nearer(c: Config, p: Prod, m: Mem, a: Aux, block: Option<Block>)
    requires E.Sane(c) && Shape(p) && Inv(c, p, m, a) && p.ppc != Ready && WillDo(c, p)
    requires p.ppc.Take? ==> block.Some?
    requires Shape(Produced(c, p, m, true, block).0)
    ensures Closer(c, p, Produced(c, p, m, true, block).0)
  {
    hide Inv, Shape, Grown;
    if p.ppc.PutKey? || p.ppc.PutValue? { KnowEntry(c, p, m, a); }
    if p.ppc.Construct? { KnowWritable(c, p, m, a); }
  }

  lemma KnowEntry(c: Config, p: Prod, m: Mem, a: Aux)
    requires E.Sane(c) && Inv(c, p, m, a) && (p.ppc.PutKey? || p.ppc.PutValue?)
    ensures p.ppc.e < |p.entries|
  {
    hide HeaderOk, KeyInv, LiveInv, ShownInv, CountInv, OwnInv, MemInv, Consumers, TailInv;
  }

  // ---------------------------------------------------------------- how many elements may be queued

  /** Where the block ends that the producer has passed the check for. */
  function Reach(c: Config, p: Prod): nat
    requires E.Sane(c)
  {
    if |p.vals| % c.B == 0 && (p.ppc.Ready? || p.ppc.Room? || GivingUp(p.ppc)) then |p.vals|
    else |p.vals| - |p.vals| % c.B + c.B
  }

  /** Less than half the range of the index type is queued, all of that block included. */
  ghost predicate Within(c: Config, p: Prod)
    requires E.Sane(c)
  {
    Reach(c, p) - |p.deq| < c.W / 2
  }

  lemma ProducedWithin(c: Config, p: Prod, m: Mem, a: Aux, ok: bool, block: Option<Block>)
    requires E.Sane(c) && Shape(p) && Inv(c, p, m, a) && Within(c, p)
    ensures Within(c, Produced(c, p, m, ok, block).0)
  {
    hide Inv, Grown;
    KnowStart(c, p, m, a);
    E.NextPos(c, |p.vals|);
  }

  lemma BegunWithin(c: Config, p: Prod, v: Value)
    requires E.Sane(c) && Within(c, p)
    ensures Within(c, Begin(c, p, v)) && Within(c, Claim(p))
  {
  }

  lemma InitWithin(c: Config)
    requires E.Sane(c)
    ensures Within(c, Init(c))
  {
    ModSmall(0, c.B);
    assert c.W / c.B > 0 by { assert c.W == (c.W / c.B) * c.B; }
    MulAtLeast(c.W / c.B, c.B);
  }
}
