/**
 The hash from thread ids to implicit producers: open-addressed tables that are only
 ever added to, chained from the newest to the oldest, grown by whichever thread finds
 the newest half full and wins the resize flag.  Any number of threads interleave at
 atomic accesses; allocation does not fail and no producer is ever recycled.
 */
module ProducerHash {
  import opened Wrappers
  import ModArith
  import opened PowerOfTwo

  type Tid = nat
  type Producer = nat

  /** One hash table; `& (capacity - 1)` is written as `% cap`, the capacity being a power of two. */
  datatype Table = Table(cap: nat, keys: seq<Option<Tid>>, vals: seq<Producer>, prev: int)

  /** Where a thread is inside get_or_add_implicit_producer. */
  datatype Pc =
    | Idle
    | Look(main: nat, h: int, step: nat)             // probe table h for the own id
    | Count(main: nat)                               // fetch_add on implicitProducerHashCount
    | Try(main: nat, n: nat)                         // is main half full?
    | TestSet(main: nat, n: nat)                     // test_and_set on the resize flag
    | Locked(n: nat)                                 // reload the newest table
    | Install(main: nat, n: nat)                     // allocate and publish a bigger table
    | Unlock(main: nat, n: nat)
    | Decide(main: nat, n: nat)                      // is main less than three quarters full?
    | Insert(main: nat, p: Producer, step: nat)      // probe main for room, for a new or an older entry
    | InsCas(main: nat, p: Producer, step: nat)      // CAS the empty key to the own id
    | InsVal(main: nat, p: Producer, slot: nat)      // store the producer and return it

  datatype State = State(
    tables: seq<Table>,                 // implicitProducerHash is the last one
    count: nat,                         // implicitProducerHashCount
    busy: bool,                         // implicitProducerHashResizeInProgress
    made: nat,                          // producers created so far
    pc: map<Tid, Pc>,
    returned: seq<(Tid, Producer)>)

  datatype Config = Config(cap0: nat, hash: Tid -> nat)

  lemma {:induction false} NewCapacityPow2(n: nat, cap: nat)
    requires cap > 0 && IsPow2(cap)
    ensures IsPow2(NewCapacity(n, cap))
    decreases 2 * n + 2 - cap
  {
    if n >= cap / 2 {
      Pow2Doubles(cap);
      NewCapacityPow2(n, 2 * cap);
    }
  }

  datatype Act = Begin(t: Tid) | Move(t: Tid)

  function At(s: State, t: Tid): Pc { if t in s.pc then s.pc[t] else Idle }

  function Blank(cap: nat, prev: int): Table { Table(cap, seq(cap, _ => None), seq(cap, _ => 0), prev) }

  function Init(c: Config): State { State([Blank(c.cap0, -1)], 0, false, 0, map[], []) }

  /** Three quarters of the capacity, as the code computes it. */
  function Quota(cap: nat): nat { cap / 2 + cap / 4 }

  function NewCapacity(n: nat, cap: nat): (r: nat)
    requires cap > 0
    ensures r >= cap && n < r / 2 && (r == cap || n >= r / 4)
    decreases 2 * n + 2 - cap
  {
    if n >= cap / 2 then NewCapacity(n, 2 * cap) else cap
  }

  function Slot(c: Config, t: Tid, cap: nat, step: nat): (j: nat)
    requires cap > 0
    ensures j < cap
  {
    (c.hash(t) + step) % cap
  }

  function Key(c: Config, tb: Table, t: Tid, step: nat): Option<Tid>
    requires 0 < tb.cap == |tb.keys|
  {
    tb.keys[Slot(c, t, tb.cap, step)]
  }

  predicate Formed(tb: Table) { 0 < tb.cap == |tb.keys| == |tb.vals| }

  function Goto(s: State, t: Tid, p: Pc): State { s.(pc := s.pc[t := p]) }

  function Return(s: State, t: Tid, p: Producer): State {
    s.(pc := s.pc[t := Idle], returned := s.returned + [(t, p)])
  }

  predicate Good(s: State) { s.tables != [] && forall i | 0 <= i < |s.tables| :: Formed(s.tables[i]) }

  function Moved(c: Config, s: State, t: Tid): (r: State)
    requires Good(s)
    ensures Good(r)
  {
    var newest := |s.tables| - 1;
    match At(s, t)
    case Idle => s
    case Look(main, h, step) =>
      if !(0 <= h < |s.tables|) then s
      else
        var tb := s.tables[h];
        var key := Key(c, tb, t, step);
        if key == Some(t) then
          var p := tb.vals[Slot(c, t, tb.cap, step)];
          if h != main then Goto(s, t, Insert(main, p, 0)) else Return(s, t, p)
        else if key == None then
          if tb.prev < 0 then Goto(s, t, Count(main)) else Goto(s, t, Look(main, tb.prev, 0))
        else Goto(s, t, Look(main, h, step + 1))
    case Count(main) => Goto(s.(count := s.count + 1), t, Try(main, s.count + 1))
    case Try(main, n) =>
      if main >= |s.tables| then s
      else Goto(s, t, if n >= s.tables[main].cap / 2 then TestSet(main, n) else Decide(main, n))
    case TestSet(main, n) => if s.busy then Goto(s, t, Decide(main, n)) else Goto(s.(busy := true), t, Locked(n))
    case Locked(n) =>
      Goto(s, t, if n >= s.tables[newest].cap / 2 then Install(newest, n) else Unlock(newest, n))
    case Install(main, n) =>
      if main >= |s.tables| then s
      else
        var tb := Blank(NewCapacity(n, 2 * s.tables[main].cap), main);
        Goto(s.(tables := s.tables + [tb]), t, Unlock(|s.tables|, n))
    case Unlock(main, n) => Goto(s.(busy := false), t, Decide(main, n))
    case Decide(main, n) =>
      if main >= |s.tables| then s
      else if n < Quota(s.tables[main].cap) then Goto(s.(made := s.made + 1), t, Insert(main, s.made, 0))
      else Goto(s, t, Try(newest, n))
    case Insert(main, p, step) =>
      if main >= |s.tables| then s
      else if Key(c, s.tables[main], t, step) == None then Goto(s, t, InsCas(main, p, step))
      else Goto(s, t, Insert(main, p, step + 1))
    case InsCas(main, p, step) =>
      if main >= |s.tables| then s
      else
        var tb := s.tables[main];
        var j := Slot(c, t, tb.cap, step);
        if tb.keys[j] == None
        then Goto(s.(tables := s.tables[main := tb.(keys := tb.keys[j := Some(t)])]), t, InsVal(main, p, j))
        else Goto(s, t, Insert(main, p, step + 1))
    case InsVal(main, p, j) =>
      if main >= |s.tables| || j >= s.tables[main].cap then s
      else Return(s.(tables := s.tables[main := s.tables[main].(vals := s.tables[main].vals[j := p])]), t, p)
  }

  function Next(c: Config, s: State, act: Act): (r: State)
    requires Good(s)
    ensures Good(r)
  {
    match act
    case Begin(t) => if At(s, t) == Idle then Goto(s, t, Look(|s.tables| - 1, |s.tables| - 1, 0)) else s
    case Move(t) => Moved(c, s, t)
  }

  function Exec(c: Config, acts: seq<Act>): (r: State)
    requires c.cap0 > 0
    ensures Good(r)
  {
    if acts == [] then Init(c) else Next(c, Exec(c, acts[..|acts| - 1]), acts[|acts| - 1])
  }

  // ---------- The invariant ----------

  /** The count a thread drew from the shared counter, and the producer it was given. */
  datatype Aux = Aux(cnt: map<Tid, nat>, prod: map<Tid, Producer>)

  /** The first `step` probes of thread t meet occupied slots. */
  ghost predicate Path(c: Config, tb: Table, t: Tid, step: nat)
    requires Formed(tb)
  {
    forall i: nat | i < step :: Key(c, tb, t, i) != None
  }

  /** An occupied slot: its key was counted within the quota and is found by probing. */
  ghost predicate SlotOk(c: Config, tb: Table, cnt: map<Tid, nat>, j: nat)
    requires Formed(tb) && j < tb.cap && tb.keys[j].Some?
  {
    var t := tb.keys[j].value;
    && t in cnt && 1 <= cnt[t] < Quota(tb.cap)
    && exists i: nat :: Slot(c, t, tb.cap, i) == j && Path(c, tb, t, i)
  }

  ghost predicate TableOk(c: Config, tb: Table, cnt: map<Tid, nat>) {
    && Formed(tb) && IsPow2(tb.cap)
    && (forall j | 0 <= j < tb.cap && tb.keys[j].Some? :: SlotOk(c, tb, cnt, j))
    && (forall j, k | 0 <= j < k < tb.cap && tb.keys[j].Some? :: tb.keys[j] != tb.keys[k])
  }

  ghost predicate TablesOk(c: Config, tables: seq<Table>, cnt: map<Tid, nat>) {
    && tables != []
    && (forall i | 0 <= i < |tables| :: TableOk(c, tables[i], cnt) && tables[i].prev == i - 1)
    && (forall i, j | 0 <= i <= j < |tables| :: tables[i].cap <= tables[j].cap)
  }

  ghost predicate Absent(tables: seq<Table>, t: Tid, from: int) {
    forall i | 0 <= i < |tables| && from <= i :: Some(t) !in tables[i].keys
  }

  ghost predicate Present(tables: seq<Table>, t: Tid) { exists i :: 0 <= i < |tables| && Some(t) in tables[i].keys }

  ghost predicate CountsOk(s: State, a: Aux) {
    && (forall t | t in a.cnt :: 1 <= a.cnt[t] <= s.count)
    && (forall t, u | t in a.cnt && u in a.cnt && a.cnt[t] == a.cnt[u] :: t == u)
    && (forall t | t in a.prod :: a.prod[t] < s.made)
    && (forall t, u | t in a.prod && u in a.prod && a.prod[t] == a.prod[u] :: t == u)
    && (forall k | 0 <= k < |s.returned| :: s.returned[k].0 in a.prod && a.prod[s.returned[k].0] == s.returned[k].1)
  }

  /** Every entry holds its thread's producer, except the one its thread is about to fill in. */
  ghost predicate ValsOk(tables: seq<Table>, pc: map<Tid, Pc>, prod: map<Tid, Producer>) {
    forall i, j,
      t | 0 <= i < |tables| && 0 <= j < |tables[i].keys| && j < |tables[i].vals| && tables[i].keys[j] == Some(t) ::
      && t in prod
      && (tables[i].vals[j] == prod[t] || (t in pc && pc[t] == InsVal(i, prod[t], j)))
  }

  predicate Resizing(p: Pc) { p.Locked? || p.Install? || p.Unlock? }

  predicate Counted(p: Pc) { p.Try? || p.TestSet? || p.Locked? || p.Install? || p.Unlock? || p.Decide? }

  ghost predicate PcOk(c: Config, tables: seq<Table>, busy: bool, a: Aux, t: Tid, p: Pc) {
    && (p.Idle? || p.Locked? || p.main < |tables|)
    && (Counted(p) ==> t in a.cnt && a.cnt[t] == p.n && t !in a.prod && Absent(tables, t, 0))
    && (Resizing(p) ==> busy)
    && (p.Insert? || p.InsCas? || p.InsVal? ==> t in a.cnt && t in a.prod && a.prod[t] == p.p)
    && match p
       case Idle => (t in a.prod <==> t in a.cnt) && (t in a.prod ==> Present(tables, t))
       case Look(main, h, step) =>
         && 0 <= h <= main && Absent(tables, t, h + 1) && (t in a.prod <==> t in a.cnt) &&
           (t in a.prod ==> Present(tables, t))
         && Formed(tables[h]) && Path(c, tables[h], t, step) &&
           (forall i: nat | i < step :: Key(c, tables[h], t, i) != Some(t))
       case Count(main) => t !in a.cnt && t !in a.prod && Absent(tables, t, 0)
       case Install(main, n) => main == |tables| - 1
       case Insert(main, q, step) =>
         Absent(tables, t, main) && Formed(tables[main]) && a.cnt[t] < Quota(tables[main].cap) &&
           Path(c, tables[main], t, step)
       case InsCas(main, q, step) =>
         Absent(tables, t, main) && Formed(tables[main]) && a.cnt[t] < Quota(tables[main].cap) &&
           Path(c, tables[main], t, step)
       case InsVal(main, q, j) => Formed(tables[main]) && j < tables[main].cap && tables[main].keys[j] == Some(t)
       case _ => true
  }

  ghost predicate Threads(c: Config, s: State, a: Aux) {
    && (forall t :: PcOk(c, s.tables, s.busy, a, t, At(s, t)))
    && (forall t, u | Resizing(At(s, t)) && Resizing(At(s, u)) :: t == u)
  }

  ghost predicate Inv(c: Config, s: State, a: Aux) {
    && TablesOk(c, s.tables, a.cnt) && CountsOk(s, a) && ValsOk(s.tables, s.pc, a.prod) && Threads(c, s, a)
  }

  // ---------- Every step keeps the invariant ----------

  /** A thread moves on without writing to a table or a counter. */
  lemma KeepPc(c: Config, s: State, s': State, a: Aux, t: Tid, p: Pc)
    requires Inv(c, s, a) && s' == s.(busy := s'.busy, pc := s.pc[t := p]) && !At(s, t).InsVal?
    requires PcOk(c, s.tables, s'.busy, a, t, p)
    requires s'.busy == s.busy || (Resizing(p) != Resizing(At(s, t)) && s'.busy == Resizing(p))
    requires Resizing(p) ==> Resizing(At(s, t)) || !s.busy
    ensures Inv(c, s', a)
  {
    hide TablesOk, ValsOk, Path, IsPow2, Exp2;
    ValsPc(s.tables, s.pc, a.prod, t, p);
    forall u ensures PcOk(c, s'.tables, s'.busy, a, u, At(s', u)) {
      assert PcOk(c, s.tables, s.busy, a, u, At(s, u));
    }
    forall u, w | Resizing(At(s', u)) && Resizing(At(s', w)) ensures u == w {
      assert PcOk(c, s.tables, s.busy, a, u, At(s, u)) && PcOk(c, s.tables, s.busy, a, w, At(s, w));
    }
  }

  /** The table after its empty slot j got key t. */
  function Claimed(tb: Table, j: nat, t: Tid): Table
    requires j < |tb.keys|
  {
    tb.(keys := tb.keys[j := Some(t)])
  }

  lemma PathGrows(c: Config, tb: Table, j: nat, t: Tid, u: Tid, step: nat)
    requires Formed(tb) && j < tb.cap && Path(c, tb, u, step)
    ensures Path(c, Claimed(tb, j, t), u, step)
  {
    forall i: nat | i < step ensures Key(c, Claimed(tb, j, t), u, i) != None { assert Key(c, tb, u, i) != None; }
  }

  lemma SlotStays(c: Config, tb: Table, cnt: map<Tid, nat>, j: nat, t: Tid, k: nat)
    requires Formed(tb) && j < tb.cap && k < tb.cap && k != j && tb.keys[k].Some? && SlotOk(c, tb, cnt, k)
    ensures SlotOk(c, Claimed(tb, j, t), cnt, k)
  {
    hide Path;
    var u := tb.keys[k].value;
    var i: nat :| Slot(c, u, tb.cap, i) == k && Path(c, tb, u, i);
    PathGrows(c, tb, j, t, u, i);
  }

  lemma TableClaim(c: Config, tb: Table, cnt: map<Tid, nat>, t: Tid, step: nat)
    requires TableOk(c, tb, cnt) && Path(c, tb, t, step) && Key(c, tb, t, step) == None
    requires Some(t) !in tb.keys && t in cnt && 1 <= cnt[t] < Quota(tb.cap)
    ensures TableOk(c, Claimed(tb, Slot(c, t, tb.cap, step), t), cnt)
  {
    var j := Slot(c, t, tb.cap, step);
    var tb' := Claimed(tb, j, t);
    PathGrows(c, tb, j, t, t, step);
    hide Path, Slot;
    forall k | 0 <= k < tb'.cap && tb'.keys[k].Some? ensures SlotOk(c, tb', cnt, k) {
      if k != j { SlotStays(c, tb, cnt, j, t, k); }
    }
    forall k, l | 0 <= k < l < tb'.cap && tb'.keys[k].Some? ensures tb'.keys[k] != tb'.keys[l] {
      assert k != j ==> tb.keys[k] in tb.keys;
      assert l != j ==> tb.keys[l] in tb.keys;
    }
  }

  lemma TablesClaim(c: Config, tables: seq<Table>, cnt: map<Tid, nat>, m: nat, tb': Table)
    requires TablesOk(c, tables, cnt) && m < |tables| && TableOk(c, tb', cnt)
    requires tb'.cap == tables[m].cap && tb'.prev == tables[m].prev
    ensures TablesOk(c, tables[m := tb'], cnt)
  {
    hide TableOk;
  }

  /** What another thread knows stays true when thread t takes a slot. */
  lemma OtherClaim(c: Config, tables: seq<Table>, busy: bool, a: Aux, m: nat, j: nat, t: Tid, u: Tid, p: Pc)
    requires m < |tables| && Formed(tables[m]) && j < tables[m].cap && tables[m].keys[j] == None && u != t
    requires PcOk(c, tables, busy, a, u, p)
    ensures PcOk(c, tables[m := Claimed(tables[m], j, t)], busy, a, u, p)
  {
    var tables' := tables[m := Claimed(tables[m], j, t)];
    forall i | 0 <= i < |tables| ensures Some(u) in tables'[i].keys <==> Some(u) in tables[i].keys {
      KeySame(tables[m].keys, j, t, u);
    }
    if p.Look? && p.h == m {
      PathGrows(c, tables[m], j, t, u, p.step);
      forall i: nat | i < p.step
        ensures Key(c, tables'[m], u, i) != Some(u) { assert Key(c, tables[m], u, i) != Some(u); }
    }
    if (p.Insert? || p.InsCas?) && p.main == m { PathGrows(c, tables[m], j, t, u, p.step); }
    assert Present(tables, u) ==> Present(tables', u);
  }

  lemma KeySame(keys: seq<Option<Tid>>, j: nat, t: Tid, u: Tid)
    requires j < |keys| && u != t && keys[j] == None
    ensures Some(u) in keys[j := Some(t)] <==> Some(u) in keys
  {
    if Some(u) in keys {
      var k :| 0 <= k < |keys| && keys[k] == Some(u);
      assert keys[j := Some(t)][k] == Some(u);
    }
  }

  /** What the invariant says about one thread, and about one table. */
  lemma Know(c: Config, s: State, a: Aux, t: Tid, m: nat)
    requires Inv(c, s, a) && m < |s.tables|
    ensures PcOk(c, s.tables, s.busy, a, t, At(s, t)) && TableOk(c, s.tables[m], a.cnt)
    ensures t in a.cnt ==> 1 <= a.cnt[t] <= s.count
  {
    hide PcOk, TableOk;
  }

  /** The other threads' knowledge is enough to keep all of it when one thread leaves the resize out. */
  lemma ThreadsKeep(c: Config, s: State, s': State, a: Aux, a': Aux, t: Tid)
    requires Threads(c, s, a) && s'.pc == s.pc[t := At(s', t)] && t in s'.pc
    requires !Resizing(At(s', t)) || Resizing(At(s, t))
    requires forall u :: PcOk(c, s'.tables, s'.busy, a', u, At(s', u))
    ensures Threads(c, s', a')
  {
    hide PcOk;
    forall u, w | Resizing(At(s', u)) && Resizing(At(s', w)) ensures u == w {
      assert Resizing(At(s, u)) && Resizing(At(s, w));
    }
  }

  lemma ClaimVals(tables: seq<Table>, pc: map<Tid, Pc>, prod: map<Tid, Producer>, m: nat, j: nat, t: Tid)
    requires ValsOk(tables, pc, prod) && m < |tables| && j < |tables[m].keys| && t in prod
    requires t in pc ==> !pc[t].InsVal?
    ensures ValsOk(tables[m := Claimed(tables[m], j, t)], pc[t := InsVal(m, prod[t], j)], prod)
  {}

  lemma KeepClaim(c: Config, s: State, s': State, a: Aux, t: Tid, m: nat, q: Producer, step: nat)
    requires Inv(c, s, a) && At(s, t) == InsCas(m, q, step) && m < |s.tables| && Formed(s.tables[m])
    requires Key(c, s.tables[m], t, step) == None
    requires var j := Slot(c, t, s.tables[m].cap, step);
      s' == s.(tables := s.tables[m := Claimed(s.tables[m], j, t)], pc := s.pc[t := InsVal(m, q, j)])
    ensures Inv(c, s', a)
  {
    hide Slot, Path, TablesOk, TableOk, ValsOk, PcOk, Threads, CountsOk;
    var tb, j := s.tables[m], Slot(c, t, s.tables[m].cap, step);
    Know(c, s, a, t, m);
    KnowInsert(c, s.tables, s.busy, a, t, At(s, t));
    TableClaim(c, tb, a.cnt, t, step);
    TablesClaim(c, s.tables, a.cnt, m, Claimed(tb, j, t));
    ClaimVals(s.tables, s.pc, a.prod, m, j, t);
    forall u ensures PcOk(c, s'.tables, s'.busy, a, u, At(s', u)) {
      Know(c, s, a, u, m);
      if u != t { OtherClaim(c, s.tables, s.busy, a, m, j, t, u, At(s, u)); }
      else { ClaimedPc(c, s.tables, s.busy, a, t, m, step, s'.tables, j); }
    }
    ThreadsKeep(c, s, s', a, a, t);
    CountsFrame(s, s', a);
  }

  lemma KnowInsert(c: Config, tables: seq<Table>, busy: bool, a: Aux, t: Tid, p: Pc)
    requires PcOk(c, tables, busy, a, t, p) && (p.Insert? || p.InsCas?)
    ensures p.main < |tables| && Formed(tables[p.main]) && t in a.cnt && t in a.prod && a.prod[t] == p.p
    ensures a.cnt[t] < Quota(tables[p.main].cap) && Path(c, tables[p.main], t, p.step) &&
      Some(t) !in tables[p.main].keys
  {}

  lemma ClaimedPc(c: Config, tables: seq<Table>, busy: bool, a: Aux, t: Tid, m: nat, step: nat, tables': seq<Table>,
                  j: nat)
    requires m < |tables| && t in a.prod && PcOk(c, tables, busy, a, t, InsCas(m, a.prod[t], step))
    requires Formed(tables[m]) && j < tables[m].cap && tables' == tables[m := Claimed(tables[m], j, t)]
    ensures PcOk(c, tables', busy, a, t, InsVal(m, a.prod[t], j))
  {}

  lemma CountsFrame(s: State, s': State, a: Aux)
    requires CountsOk(s, a) && s'.count == s.count && s'.made == s.made && s'.returned == s.returned
    ensures CountsOk(s', a)
  {}

  lemma ReturnVals(tables: seq<Table>, pc: map<Tid, Pc>, prod: map<Tid, Producer>, m: nat, j: nat, t: Tid, tb': Table)
    requires ValsOk(tables, pc, prod) && m < |tables| && Formed(tables[m]) && j < tables[m].cap
    requires t in prod && t in pc && pc[t] == InsVal(m, prod[t], j)
    requires tb' == tables[m].(vals := tables[m].vals[j := prod[t]]) && tables[m].keys[j] == Some(t)
    ensures ValsOk(tables[m := tb'], pc[t := Idle], prod)
  {}

  lemma KeepVal(c: Config, s: State, s': State, a: Aux, t: Tid, m: nat, q: Producer, j: nat)
    requires Inv(c, s, a) && At(s, t) == InsVal(m, q, j) && m < |s.tables| && Formed(s.tables[m]) && j < s.tables[m].cap
    requires s' == Return(s.(tables := s.tables[m := s.tables[m].(vals := s.tables[m].vals[j := q])]), t, q)
    ensures Inv(c, s', a)
  {
    hide Slot, Path, TablesOk, TableOk, ValsOk, PcOk, Threads;
    var tb' := s'.tables[m];
    Know(c, s, a, t, m);
    KnowVal(c, s.tables, s.busy, a, t, At(s, t));
    ValTable(c, s.tables[m], tb', a.cnt);
    TablesClaim(c, s.tables, a.cnt, m, tb');
    ReturnVals(s.tables, s.pc, a.prod, m, j, t, tb');
    forall u ensures PcOk(c, s'.tables, s'.busy, a, u, At(s', u)) {
      Know(c, s, a, u, m);
      if u != t { OtherVal(c, s.tables, s.busy, a, m, tb', u, At(s, u)); }
      else { ReturnedPc(c, s'.tables, s'.busy, a, t, m, j); }
    }
    ThreadsKeep(c, s, s', a, a, t);
  }

  lemma KnowVal(c: Config, tables: seq<Table>, busy: bool, a: Aux, t: Tid, p: Pc)
    requires PcOk(c, tables, busy, a, t, p) && p.InsVal?
    ensures p.main < |tables| && Formed(tables[p.main]) && p.slot < tables[p.main].cap
    ensures tables[p.main].keys[p.slot] == Some(t) && t in a.cnt && t in a.prod && a.prod[t] == p.p
  {}

  lemma ReturnedPc(c: Config, tables: seq<Table>, busy: bool, a: Aux, t: Tid, m: nat, j: nat)
    requires m < |tables| && j < |tables[m].keys| && tables[m].keys[j] == Some(t) && t in a.cnt && t in a.prod
    ensures PcOk(c, tables, busy, a, t, Idle)
  {
    assert Some(t) in tables[m].keys;
  }

  lemma ValPath(c: Config, tb: Table, tb': Table, u: Tid, step: nat)
    requires Formed(tb) && Formed(tb') && tb'.keys == tb.keys && Path(c, tb, u, step)
    ensures Path(c, tb', u, step)
  {
    forall i: nat | i < step ensures Key(c, tb', u, i) != None { assert Key(c, tb, u, i) != None; }
  }

  lemma ValTable(c: Config, tb: Table, tb': Table, cnt: map<Tid, nat>)
    requires TableOk(c, tb, cnt) && Formed(tb') && tb'.keys == tb.keys
    ensures TableOk(c, tb', cnt)
  {
    hide Path;
    forall k | 0 <= k < tb'.cap && tb'.keys[k].Some? ensures SlotOk(c, tb', cnt, k) {
      assert SlotOk(c, tb, cnt, k);
      var u := tb.keys[k].value;
      var i: nat :| Slot(c, u, tb.cap, i) == k && Path(c, tb, u, i);
      ValPath(c, tb, tb', u, i);
    }
  }

  lemma OtherVal(c: Config, tables: seq<Table>, busy: bool, a: Aux, m: nat, tb': Table, u: Tid, p: Pc)
    requires m < |tables| && Formed(tables[m]) && Formed(tb') && tb'.keys == tables[m].keys
    requires PcOk(c, tables, busy, a, u, p)
    ensures PcOk(c, tables[m := tb'], busy, a, u, p)
  {
    var tables' := tables[m := tb'];
    assert forall i | 0 <= i < |tables| :: tables'[i].keys == tables[i].keys;
    if p.Look? && p.h == m {
      ValPath(c, tables[m], tb', u, p.step);
      forall i: nat | i < p.step
        ensures Key(c, tables'[m], u, i) != Some(u) { assert Key(c, tables[m], u, i) != Some(u); }
    }
    if (p.Insert? || p.InsCas?) && p.main == m { ValPath(c, tables[m], tb', u, p.step); }
    assert Present(tables, u) ==> Present(tables', u);
  }

  // ---------- Counting, creating a producer, growing ----------

  lemma CntTable(c: Config, tb: Table, cnt: map<Tid, nat>, cnt': map<Tid, nat>)
    requires TableOk(c, tb, cnt) && cnt.Keys <= cnt'.Keys && forall t | t in cnt :: cnt'[t] == cnt[t]
    ensures TableOk(c, tb, cnt')
  {
    hide Path, Slot;
    forall j | 0 <= j < tb.cap && tb.keys[j].Some? ensures SlotOk(c, tb, cnt', j) { assert SlotOk(c, tb, cnt, j); }
  }

  lemma CntTables(c: Config, tables: seq<Table>, cnt: map<Tid, nat>, cnt': map<Tid, nat>)
    requires TablesOk(c, tables, cnt) && cnt.Keys <= cnt'.Keys && forall t | t in cnt :: cnt'[t] == cnt[t]
    ensures TablesOk(c, tables, cnt')
  {
    hide TableOk;
    forall i | 0 <= i < |tables| ensures TableOk(c, tables[i], cnt') { CntTable(c, tables[i], cnt, cnt'); }
  }

  /** A thread's knowledge speaks of its own count and its own producer only. */
  lemma OtherAux(c: Config, tables: seq<Table>, busy: bool, a: Aux, a': Aux, u: Tid, p: Pc)
    requires PcOk(c, tables, busy, a, u, p)
    requires u in a.cnt <==> u in a'.cnt
    requires u in a.prod <==> u in a'.prod
    requires u in a.cnt ==> a'.cnt[u] == a.cnt[u]
    requires u in a.prod ==> a'.prod[u] == a.prod[u]
    ensures PcOk(c, tables, busy, a', u, p)
  {}

  lemma CountedPc(c: Config, tables: seq<Table>, busy: bool, a: Aux, a': Aux, t: Tid, m: nat, n: nat)
    requires PcOk(c, tables, busy, a, t, Count(m)) && a' == a.(cnt := a.cnt[t := n])
    ensures PcOk(c, tables, busy, a', t, Try(m, n)) && t !in a.cnt
  {}

  lemma KeepCount(c: Config, s: State, s': State, a: Aux, t: Tid, m: nat) returns (a': Aux)
    requires Inv(c, s, a) && At(s, t) == Count(m)
    requires s' == Goto(s.(count := s.count + 1), t, Try(m, s.count + 1))
    ensures Inv(c, s', a')
  {
    assert s.tables != [];
    hide TablesOk, ValsOk, PcOk, Threads;
    a' := a.(cnt := a.cnt[t := s.count + 1]);
    Know(c, s, a, t, 0);
    CountedPc(c, s.tables, s.busy, a, a', t, m, s.count + 1);
    CntTables(c, s.tables, a.cnt, a'.cnt);
    ValsPc(s.tables, s.pc, a.prod, t, s'.pc[t]);
    forall u ensures PcOk(c, s'.tables, s'.busy, a', u, At(s', u)) {
      Know(c, s, a, u, 0);
      if u != t { OtherAux(c, s.tables, s.busy, a, a', u, At(s, u)); }
    }
    ThreadsKeep(c, s, s', a, a', t);
  }

  lemma ValsPc(tables: seq<Table>, pc: map<Tid, Pc>, prod: map<Tid, Producer>, t: Tid, p: Pc)
    requires ValsOk(tables, pc, prod) && (t in pc ==> !pc[t].InsVal?)
    ensures ValsOk(tables, pc[t := p], prod)
  {}

  lemma NewProducer(tables: seq<Table>, pc: map<Tid, Pc>, prod: map<Tid, Producer>, t: Tid, q: Producer, p: Pc)
    requires ValsOk(tables, pc, prod) && (t in pc ==> !pc[t].InsVal?) && t !in prod
    ensures ValsOk(tables, pc[t := p], prod[t := q])
  {}

  lemma DecidedPc(c: Config, tables: seq<Table>, busy: bool, a: Aux, a': Aux, t: Tid, m: nat, n: nat, q: Producer)
    requires PcOk(c, tables, busy, a, t, Decide(m, n)) && m < |tables| && n < Quota(tables[m].cap) && Formed(tables[m])
    requires a' == a.(prod := a.prod[t := q])
    ensures PcOk(c, tables, busy, a', t, Insert(m, q, 0)) && t !in a.prod
  {}

  lemma KeepDecide(c: Config, s: State, s': State, a: Aux, t: Tid, m: nat, n: nat) returns (a': Aux)
    requires Inv(c, s, a) && At(s, t) == Decide(m, n) && m < |s.tables| && n < Quota(s.tables[m].cap)
    requires s' == Goto(s.(made := s.made + 1), t, Insert(m, s.made, 0))
    ensures Inv(c, s', a')
  {
    hide TablesOk, ValsOk, PcOk, Threads;
    a' := a.(prod := a.prod[t := s.made]);
    Know(c, s, a, t, m);
    DecidedPc(c, s.tables, s.busy, a, a', t, m, n, s.made);
    NewProducer(s.tables, s.pc, a.prod, t, s.made, s'.pc[t]);
    forall u ensures PcOk(c, s'.tables, s'.busy, a', u, At(s', u)) {
      Know(c, s, a, u, m);
      if u != t { OtherAux(c, s.tables, s.busy, a, a', u, At(s, u)); }
    }
    ThreadsKeep(c, s, s', a, a', t);
  }

  lemma TablesGrow(c: Config, tables: seq<Table>, cnt: map<Tid, nat>, n: nat)
    requires TablesOk(c, tables, cnt)
    ensures TableOk(c, tables[|tables| - 1], cnt)
    ensures TablesOk(c, tables + [Blank(NewCapacity(n, 2 * tables[|tables| - 1].cap), |tables| - 1)], cnt)
  {
    var cap := tables[|tables| - 1].cap;
    assert TableOk(c, tables[|tables| - 1], cnt);
    Pow2Doubles(cap);
    NewCapacityPow2(n, 2 * cap);
    assert TableOk(c, Blank(NewCapacity(n, 2 * cap), |tables| - 1), cnt);
    hide TableOk, NewCapacity;
  }

  /** A new, empty table takes nothing away from what a thread knows. */
  lemma OtherGrow(c: Config, tables: seq<Table>, busy: bool, a: Aux, u: Tid, p: Pc, tb: Table)
    requires PcOk(c, tables, busy, a, u, p) && Some(u) !in tb.keys && !p.Install?
    ensures PcOk(c, tables + [tb], busy, a, u, p)
  {
    var tables' := tables + [tb];
    if Present(tables, u) {
      var i :| 0 <= i < |tables| && Some(u) in tables[i].keys;
      assert Some(u) in tables'[i].keys;
    }
  }

  lemma GrownVals(tables: seq<Table>, pc: map<Tid, Pc>, prod: map<Tid, Producer>, t: Tid, p: Pc, tb: Table)
    requires ValsOk(tables, pc, prod) && (t in pc ==> !pc[t].InsVal?) &&
      forall j | 0 <= j < |tb.keys| :: tb.keys[j] == None
    ensures ValsOk(tables + [tb], pc[t := p], prod)
  {}

  lemma InstalledPc(c: Config, tables: seq<Table>, busy: bool, a: Aux, t: Tid, m: nat, n: nat, tb: Table)
    requires PcOk(c, tables, busy, a, t, Install(m, n)) && Some(t) !in tb.keys
    ensures PcOk(c, tables + [tb], busy, a, t, Unlock(|tables|, n)) && m == |tables| - 1
  {}

  lemma OnlyOneResizes(c: Config, s: State, a: Aux, t: Tid, u: Tid)
    requires Inv(c, s, a) && Resizing(At(s, t)) && u != t
    ensures !Resizing(At(s, u))
  {
    hide PcOk, TablesOk, ValsOk, CountsOk;
  }

  lemma KeepInstall(c: Config, s: State, s': State, a: Aux, t: Tid, m: nat, n: nat)
    requires Inv(c, s, a) && At(s, t) == Install(m, n) && m < |s.tables| && s.tables[m].cap > 0
    requires s' ==
      Goto(s.(tables := s.tables + [Blank(NewCapacity(n, 2 * s.tables[m].cap), m)]), t, Unlock(|s.tables|, n))
    ensures Inv(c, s', a)
  {
    hide TablesOk, ValsOk, PcOk, Threads, CountsOk, NewCapacity;
    var tb := s'.tables[|s.tables|];
    Know(c, s, a, t, m);
    InstalledPc(c, s.tables, s.busy, a, t, m, n, tb);
    TablesGrow(c, s.tables, a.cnt, n);
    GrownVals(s.tables, s.pc, a.prod, t, s'.pc[t], tb);
    forall u ensures PcOk(c, s'.tables, s'.busy, a, u, At(s', u)) {
      Know(c, s, a, u, m);
      if u != t {
        OnlyOneResizes(c, s, a, t, u);
        OtherGrow(c, s.tables, s.busy, a, u, At(s, u), tb);
      }
    }
    ThreadsKeep(c, s, s', a, a, t);
    CountsFrame(s, s', a);
  }

  // ---------- Looking up and probing ----------

  lemma FoundAt(c: Config, tb: Table, cnt: map<Tid, nat>, t: Tid) returns (i: nat)
    requires TableOk(c, tb, cnt) && Some(t) in tb.keys
    ensures Key(c, tb, t, i) == Some(t) && Path(c, tb, t, i)
  {
    hide Path;
    var j :| 0 <= j < tb.cap && tb.keys[j] == Some(t);
    assert SlotOk(c, tb, cnt, j);
    i :| Slot(c, t, tb.cap, i) == j && Path(c, tb, t, i);
  }

  /** An empty slot ends the search: the id is not in this table. */
  lemma NotFound(c: Config, tb: Table, cnt: map<Tid, nat>, t: Tid, step: nat)
    requires TableOk(c, tb, cnt) && Key(c, tb, t, step) == None
    requires forall i: nat | i < step :: Key(c, tb, t, i) != Some(t)
    ensures Some(t) !in tb.keys
  {
    if Some(t) in tb.keys {
      var i := FoundAt(c, tb, cnt, t);
    }
  }

  lemma LookPc(c: Config, s: State, a: Aux, t: Tid)
    requires Inv(c, s, a) && At(s, t).Look?
    ensures var p := At(s, t); 0 <= p.h <= p.main < |s.tables| && s.tables[p.h].prev == p.h - 1
    ensures var p := At(s, t); TableOk(c, s.tables[p.h], a.cnt) && PcOk(c, s.tables, s.busy, a, t, p)
    ensures var p := At(s, t); s.tables[p.h].cap <= s.tables[p.main].cap
  {
    assert PcOk(c, s.tables, s.busy, a, t, At(s, t));
    hide TableOk, PcOk, ValsOk, CountsOk;
  }

  /** The probe goes on: the slot just seen belongs to somebody else. */
  lemma LookOn(c: Config, tables: seq<Table>, busy: bool, a: Aux, t: Tid, m: nat, h: int, step: nat)
    requires PcOk(c, tables, busy, a, t, Look(m, h, step)) && 0 <= h < |tables| && Formed(tables[h])
    requires Key(c, tables[h], t, step) != None && Key(c, tables[h], t, step) != Some(t)
    ensures PcOk(c, tables, busy, a, t, Look(m, h, step + 1))
  {
    hide Key;
  }

  lemma LookDown(c: Config, tables: seq<Table>, busy: bool, a: Aux, t: Tid, m: nat, h: int, step: nat)
    requires PcOk(c, tables, busy, a, t, Look(m, h, step)) && 0 <= h < |tables| && TableOk(c, tables[h], a.cnt)
    requires Key(c, tables[h], t, step) == None
    ensures Absent(tables, t, h)
    ensures h > 0 && Formed(tables[h - 1]) ==> PcOk(c, tables, busy, a, t, Look(m, h - 1, 0))
    ensures h == 0 ==> PcOk(c, tables, busy, a, t, Count(m))
  {
    NotFound(c, tables[h], a.cnt, t, step);
    hide Key, TableOk;
  }

  /** Found: the value is the thread's producer, and if the table was an old one there is room in main. */
  lemma LookFound(c: Config, s: State, a: Aux, t: Tid)
    requires Inv(c, s, a) && At(s, t).Look? && 0 <= At(s, t).h < |s.tables| && Formed(s.tables[At(s, t).h])
    requires Key(c, s.tables[At(s, t).h], t, At(s, t).step) == Some(t)
    ensures t in a.prod && s.tables[At(s, t).h].vals[Slot(c, t, s.tables[At(s, t).h].cap, At(s, t).step)] == a.prod[t]
    ensures PcOk(c, s.tables, s.busy, a, t, Idle)
    ensures At(s, t).h != At(s, t).main ==> PcOk(c, s.tables, s.busy, a, t, Insert(At(s, t).main, a.prod[t], 0))
  {
    hide IsPow2, Exp2;
    var p := At(s, t);
    LookPc(c, s, a, t);
    var j := Slot(c, t, s.tables[p.h].cap, p.step);
    assert SlotOk(c, s.tables[p.h], a.cnt, j);
    assert Formed(s.tables[p.main]) by { Know(c, s, a, t, p.main); }
    hide TablesOk, TableOk, Threads, Slot, Path;
  }

  lemma KeepReturn(c: Config, s: State, s': State, a: Aux, t: Tid, q: Producer)
    requires Inv(c, s, a) && s' == Return(s, t, q) && t in a.prod && a.prod[t] == q && !At(s, t).InsVal?
    requires !Resizing(At(s, t)) && PcOk(c, s.tables, s.busy, a, t, Idle)
    ensures Inv(c, s', a)
  {
    assert s.tables != [];
    hide TablesOk, ValsOk, PcOk, Threads;
    ValsPc(s.tables, s.pc, a.prod, t, Idle);
    forall u ensures PcOk(c, s'.tables, s'.busy, a, u, At(s', u)) { Know(c, s, a, u, 0); }
    ThreadsKeep(c, s, s', a, a, t);
  }

  lemma KeepLook(c: Config, s: State, a: Aux, t: Tid)
    requires Inv(c, s, a) && Good(s) && At(s, t).Look?
    ensures Inv(c, Moved(c, s, t), a)
  {
    hide Inv, PcOk, Key, Slot, TableOk;
    var p, s' := At(s, t), Moved(c, s, t);
    LookPc(c, s, a, t);
    var tb := s.tables[p.h];
    if Key(c, tb, t, p.step) == Some(t) {
      LookFound(c, s, a, t);
      if p.h != p.main { KeepPc(c, s, s', a, t, Insert(p.main, a.prod[t], 0)); }
        else { KeepReturn(c, s, s', a, t, a.prod[t]); }
    } else if Key(c, tb, t, p.step) == None {
      LookDown(c, s.tables, s.busy, a, t, p.main, p.h, p.step);
      KeepPc(c, s, s', a, t, if p.h == 0 then Count(p.main) else Look(p.main, p.h - 1, 0));
    } else {
      LookOn(c, s.tables, s.busy, a, t, p.main, p.h, p.step);
      KeepPc(c, s, s', a, t, Look(p.main, p.h, p.step + 1));
    }
  }

  lemma InsertOn(c: Config, tables: seq<Table>, busy: bool, a: Aux, t: Tid, p: Pc)
    requires PcOk(c, tables, busy, a, t, p) && (p.Insert? || p.InsCas?) && p.main < |tables| && Formed(tables[p.main])
    ensures Key(c, tables[p.main], t, p.step) != None ==> PcOk(c, tables, busy, a, t, Insert(p.main, p.p, p.step + 1))
    ensures p.Insert? ==> PcOk(c, tables, busy, a, t, InsCas(p.main, p.p, p.step))
  {
    hide Key;
  }

  lemma KeepInsert(c: Config, s: State, a: Aux, t: Tid)
    requires Inv(c, s, a) && Good(s) && (At(s, t).Insert? || At(s, t).InsCas? || At(s, t).InsVal?)
    ensures Inv(c, Moved(c, s, t), a)
  {
    hide Inv, PcOk, Slot, TableOk;
    var p, s' := At(s, t), Moved(c, s, t);
    if p.main < |s.tables| {
      Know(c, s, a, t, p.main);
      assert Formed(s.tables[p.main]);
      if p.InsVal? {
        if p.slot < s.tables[p.main].cap { KeepVal(c, s, s', a, t, p.main, p.p, p.slot); }
      } else {
        InsertOn(c, s.tables, s.busy, a, t, p);
        if Key(c, s.tables[p.main], t, p.step) != None { KeepPc(c, s, s', a, t, Insert(p.main, p.p, p.step + 1)); }
        else if p.Insert? { KeepPc(c, s, s', a, t, InsCas(p.main, p.p, p.step)); }
        else { KeepClaim(c, s, s', a, t, p.main, p.p, p.step); }
      }
    }
  }

  /** A thread that has its count moves between the tests of the resize loop. */
  lemma CountedMoves(c: Config, tables: seq<Table>, busy: bool, busy': bool, a: Aux, t: Tid, p: Pc, p': Pc)
    requires PcOk(c, tables, busy, a, t, p) && Counted(p) && Counted(p') && p'.n == p.n
    requires p'.Locked? || p'.main < |tables|
    requires Resizing(p') ==> busy'
    requires p'.Install? ==> p'.main == |tables| - 1
    ensures PcOk(c, tables, busy', a, t, p')
  {}

  lemma KeepResize(c: Config, s: State, a: Aux, t: Tid) returns (a': Aux)
    requires Inv(c, s, a) && Good(s) && Counted(At(s, t))
    ensures Inv(c, Moved(c, s, t), a')
  {
    a' := a;
    var p, s' := At(s, t), Moved(c, s, t);
    Know(c, s, a, t, 0);
    assert p.Locked? || p.main < |s.tables|;
    assert Resizing(p) ==> s.busy;
    hide Inv, PcOk, TableOk, NewCapacity;
    if p.Install? {
      KeepInstall(c, s, s', a, t, p.main, p.n);
    } else if p.Decide? && p.n < Quota(s.tables[p.main].cap) {
      a' := KeepDecide(c, s, s', a, t, p.main, p.n);
    } else {
      CountedMoves(c, s.tables, s.busy, s'.busy, a, t, p, s'.pc[t]);
      KeepPc(c, s, s', a, t, s'.pc[t]);
    }
  }

  lemma KeepMove(c: Config, s: State, a: Aux, t: Tid) returns (a': Aux)
    requires Inv(c, s, a) && Good(s)
    ensures Inv(c, Moved(c, s, t), a')
  {
    hide Inv, Key;
    a' := a;
    var p := At(s, t);
    if p.Look? { KeepLook(c, s, a, t); }
    else if p.Count? { a' := KeepCount(c, s, Moved(c, s, t), a, t, p.main); }
    else if Counted(p) { a' := KeepResize(c, s, a, t); }
    else if p != Idle { KeepInsert(c, s, a, t); }
  }

  lemma BegunPc(c: Config, s: State, a: Aux, t: Tid)
    requires Good(s) && PcOk(c, s.tables, s.busy, a, t, Idle)
    ensures PcOk(c, s.tables, s.busy, a, t, Look(|s.tables| - 1, |s.tables| - 1, 0))
  {}

  lemma InitInv(c: Config)
    requires IsPow2(c.cap0)
    ensures Inv(c, Init(c), Aux(map[], map[]))
  {}

  lemma {:induction false} ExecInv(c: Config, acts: seq<Act>) returns (a: Aux)
    requires c.cap0 > 0 && IsPow2(c.cap0)
    ensures Inv(c, Exec(c, acts), a)
  {
    hide Inv, PcOk, TableOk;
    if acts == [] {
      InitInv(c);
      a := Aux(map[], map[]);
    } else {
      var n := |acts| - 1;
      var s := Exec(c, acts[..n]);
      a := ExecInv(c, acts[..n]);
      match acts[n]
      case Begin(t) =>
        if At(s, t) == Idle {
          Know(c, s, a, t, 0);
          BegunPc(c, s, a, t);
          KeepPc(c, s, Next(c, s, acts[n]), a, t, Look(|s.tables| - 1, |s.tables| - 1, 0));
        }
      case Move(t) => a := KeepMove(c, s, a, t);
    }
  }

  // ---------- What every schedule guarantees ----------

  /** A thread always gets the same producer, and no two threads get the same one. */
  lemma OneProducerPerThread(c: Config, acts: seq<Act>, k: nat, l: nat)
    requires c.cap0 > 0 && IsPow2(c.cap0) && k < |Exec(c, acts).returned| && l < |Exec(c, acts).returned|
    ensures var r := Exec(c, acts).returned; r[k].0 == r[l].0 <==> r[k].1 == r[l].1
  {
    var a := ExecInv(c, acts);
    hide TablesOk, ValsOk, Threads, Exec;
  }

  function Occupied(tb: Table): set<nat> { set j | 0 <= j < |tb.keys| && tb.keys[j].Some? }

  /** A set that maps one to one into 1 .. q - 1 has fewer than q elements. */
  lemma {:induction false} FewerThan(x: set<nat>, f: map<nat, nat>, q: nat)
    requires forall j | j in x :: j in f && 1 <= f[j] < q
    requires forall j, k | j in x && k in x && f[j] == f[k] :: j == k
    ensures x == {} || |x| < q
  {
    if x != {} {
      if j :| j in x && f[j] == q - 1 {
        var y := x - {j};
        assert x == y + {j};
        FewerThan(y, f, q - 1);
      } else {
        FewerThan(x, f, q - 1);
      }
    }
  }

  lemma TableNotFull(c: Config, tb: Table, cnt: map<Tid, nat>)
    requires TableOk(c, tb, cnt) && forall t, u | t in cnt && u in cnt && cnt[t] == cnt[u] :: t == u
    ensures Occupied(tb) == {} || |Occupied(tb)| < Quota(tb.cap)
  {
    var x := Occupied(tb);
    forall j | j in x ensures tb.keys[j].value in cnt && 1 <= cnt[tb.keys[j].value] < Quota(tb.cap) {
      assert SlotOk(c, tb, cnt, j);
    }
    hide SlotOk;
    var f := map j | j in x :: cnt[tb.keys[j].value];
    FewerThan(x, f, Quota(tb.cap));
  }

  /** Every table stays empty or less than three quarters full. */
  lemma TablesNotFull(c: Config, acts: seq<Act>, i: nat)
    requires c.cap0 > 0 && IsPow2(c.cap0) && i < |Exec(c, acts).tables|
    ensures var tb := Exec(c, acts).tables[i]; Occupied(tb) == {} || |Occupied(tb)| < Quota(tb.cap)
  {
    hide Exec, TableOk, ValsOk, Threads;
    var a := ExecInv(c, acts);
    TableNotFull(c, Exec(c, acts).tables[i], a.cnt);
  }

  lemma {:induction false} AtLeast(x: set<nat>, n: nat)
    requires forall j: nat | j < n :: j in x
    ensures |x| >= n
  {
    if n > 0 {
      AtLeast(x - {n - 1}, n - 1);
      assert x == x - {n - 1} + {n - 1};
    }
  }

  /** Some slot is free, so a probe that starts anywhere meets one within a round. */
  lemma PathIsShort(c: Config, tb: Table, t: Tid, step: nat)
    requires Formed(tb) && Path(c, tb, t, step) && (Occupied(tb) == {} || |Occupied(tb)| < Quota(tb.cap))
    ensures step < tb.cap
  {
    if step >= tb.cap {
      forall j: nat | j < tb.cap ensures j in Occupied(tb) {
        var i := Steps(c.hash(t), tb.cap, j);
        assert Key(c, tb, t, i) != None;
      }
      AtLeast(Occupied(tb), tb.cap);
    }
  }

  /** How many steps from the home slot to slot j. */
  lemma Steps(h: nat, cap: nat, j: nat) returns (i: nat)
    requires j < cap
    ensures i < cap && (h + i) % cap == j
  {
    var r := h % cap;
    i := if j >= r then j - r else j - r + cap;
    ModArith.ModAdd(h, i, cap);
    ModArith.ModIs(r + i, cap, if j >= r then 0 else 1);
  }

  /** The slot a probing thread is about to look at is always within one round of its table. */
  lemma ProbesTerminate(c: Config, acts: seq<Act>, t: Tid)
    requires c.cap0 > 0 && IsPow2(c.cap0)
    ensures var s, p := Exec(c, acts), At(Exec(c, acts), t);
      && (p.Look? ==> 0 <= p.h < |s.tables| && p.step < s.tables[p.h].cap)
      && (p.Insert? || p.InsCas? ==> p.main < |s.tables| && p.step < s.tables[p.main].cap)
  {
    hide Exec;
    var s, p := Exec(c, acts), At(Exec(c, acts), t);
    var a := ExecInv(c, acts);
    assert PcOk(c, s.tables, s.busy, a, t, p);
    hide Inv, Path;
    if p.Look? {
      TablesNotFull(c, acts, p.h);
      PathIsShort(c, s.tables[p.h], t, p.step);
    }
    if p.Insert? || p.InsCas? {
      TablesNotFull(c, acts, p.main);
      PathIsShort(c, s.tables[p.main], t, p.step);
    }
  }

  /** Whatever tables a thread that is outside occurs in, they all hold the same producer. */
  lemma TablesAgree(c: Config, acts: seq<Act>, t: Tid, i: nat, j: nat, k: nat, l: nat)
    requires c.cap0 > 0 && IsPow2(c.cap0) && At(Exec(c, acts), t) == Idle
    requires var s := Exec(c, acts); i < |s.tables| && j < s.tables[i].cap && s.tables[i].keys[j] == Some(t)
    requires var s := Exec(c, acts); k < |s.tables| && l < s.tables[k].cap && s.tables[k].keys[l] == Some(t)
    ensures Exec(c, acts).tables[i].vals[j] == Exec(c, acts).tables[k].vals[l] && (i == k ==> j == l)
  {
    hide Exec, SlotOk;
    var s := Exec(c, acts);
    var a := ExecInv(c, acts);
    Know(c, s, a, t, i);
    hide Threads, CountsOk;
  }

  // ---------- How calls end ----------

  /** The state before step n of a schedule. */
  function Before(c: Config, acts: seq<Act>, n: nat): (s: State)
    requires c.cap0 > 0 && n <= |acts|
    ensures Good(s)
  {
    Exec(c, acts[..n])
  }

  lemma StepOf(c: Config, acts: seq<Act>, n: nat)
    requires c.cap0 > 0 && n < |acts|
    ensures Before(c, acts, n + 1) == Next(c, Before(c, acts, n), acts[n])
  {
    assert acts[..n + 1][..n] == acts[..n];
  }

  lemma OthersStay(c: Config, s: State, act: Act, t: Tid)
    requires Good(s) && act != Move(t) && act != Begin(t)
    ensures At(Next(c, s, act), t) == At(s, t)
  {
    hide Moved;
    if act.Move? { MovedOthers(c, s, act.t, t); }
  }

  lemma MovedOthers(c: Config, s: State, u: Tid, t: Tid)
    requires Good(s) && t != u
    ensures At(Moved(c, s, u), t) == At(s, t)
  {
    hide Slot, Quota, NewCapacity, Key, Blank;
  }

  lemma MovedReturns(c: Config, s: State, t: Tid)
    requires Good(s)
    ensures var s' := Moved(c, s, t);
      if At(s, t) != Idle && At(s', t) == Idle
      then |s'.returned| == |s.returned| + 1 && s.returned <= s'.returned && s'.returned[|s.returned|].0 == t
      else s'.returned == s.returned
  {
    hide Slot, Quota, NewCapacity, Key, Blank;
  }

  lemma ReturnStep(c: Config, s: State, act: Act, t: Tid)
    requires Good(s)
    ensures var s' := Next(c, s, act);
      if At(s, t) != Idle && At(s', t) == Idle
      then act == Move(t) && exists p :: s'.returned == s.returned + [(t, p)]
      else act == Move(t) ==> s'.returned == s.returned
  {
    hide Moved;
    var s' := Next(c, s, act);
    if act == Move(t) {
      MovedReturns(c, s, t);
      if At(s, t) != Idle && At(s', t) == Idle {
        assert s'.returned == s.returned + [(t, s'.returned[|s.returned|].1)];
      }
    } else if act != Begin(t) {
      OthersStay(c, s, act, t);
    }
  }

  /** A call ends when it returns a producer to its thread, and at no other step of the thread. */
  lemma CallReturns(c: Config, acts: seq<Act>, n: nat, t: Tid)
    requires c.cap0 > 0 && n < |acts|
    ensures var s, s' := Before(c, acts, n), Before(c, acts, n + 1);
      if At(s, t) != Idle && At(s', t) == Idle
      then acts[n] == Move(t) && exists p :: s'.returned == s.returned + [(t, p)]
      else acts[n] == Move(t) ==> s'.returned == s.returned
  {
    hide Exec, Next;
    StepOf(c, acts, n);
    ReturnStep(c, Before(c, acts, n), acts[n], t);
  }

  /** The table that a resizing thread is going to use is big enough. */
  ghost predicate Fits(s: State) {
    forall t | At(s, t).Unlock? :: At(s, t).main < |s.tables| && At(s, t).n < s.tables[At(s, t).main].cap / 2
  }

  /** Tables are added, and never change their capacities. */
  lemma CapsStay(c: Config, s: State, act: Act)
    requires Good(s)
    ensures var s' := Next(c, s, act);
      |s.tables| <= |s'.tables| && forall i | 0 <= i < |s.tables| :: s'.tables[i].cap == s.tables[i].cap
  {
    hide Slot, Quota, NewCapacity;
  }

  lemma UnlockFits(c: Config, s: State, t: Tid)
    requires Good(s) && !At(s, t).Unlock?
    ensures var s' := Moved(c, s, t); var p := At(s', t);
      p.Unlock? ==> p.main < |s'.tables| && p.n < s'.tables[p.main].cap / 2
  {
    hide Slot, Quota;
  }

  lemma FitsStep(c: Config, s: State, act: Act)
    requires Good(s) && Fits(s)
    ensures Fits(Next(c, s, act))
  {
    hide Moved;
    var s' := Next(c, s, act);
    CapsStay(c, s, act);
    forall t | At(s', t).Unlock?
      ensures At(s', t).main < |s'.tables| && At(s', t).n < s'.tables[At(s', t).main].cap / 2
    {
      if act == Move(t) {
        if At(s, t).Unlock? { UnlockMoves(c, s, t); } else { UnlockFits(c, s, t); }
      } else if act != Begin(t) {
        OthersStay(c, s, act, t);
      }
    }
  }

  lemma UnlockMoves(c: Config, s: State, t: Tid)
    requires Good(s) && At(s, t).Unlock?
    ensures At(Moved(c, s, t), t) == Decide(At(s, t).main, At(s, t).n)
  {
  }

  lemma {:induction false} AllFit(c: Config, acts: seq<Act>)
    requires c.cap0 > 0
    ensures Fits(Exec(c, acts))
  {
    hide Next, Fits;
    if acts == [] {
      FitsFirst(c);
    } else {
      AllFit(c, acts[..|acts| - 1]);
      FitsStep(c, Exec(c, acts[..|acts| - 1]), acts[|acts| - 1]);
    }
  }

  lemma FitsFirst(c: Config)
    ensures Fits(Init(c))
  {
  }

  // ---------- Tables grow only when they must ----------

  /** A thread that is after the resize flag, or is about to install a table, counts at least half of one. */
  ghost predicate Half(s: State, p: Pc) {
    p.TestSet? || p.Install? ==> p.main < |s.tables| && p.n >= s.tables[p.main].cap / 2
  }

  ghost predicate Halves(s: State) { forall t :: Half(s, At(s, t)) }

  lemma MovedHalf(c: Config, s: State, t: Tid)
    requires Good(s) && Half(s, At(s, t))
    ensures Half(Moved(c, s, t), At(Moved(c, s, t), t))
  {
    hide Slot, Quota, NewCapacity, Key, Blank;
  }

  lemma HalvesStep(c: Config, s: State, act: Act)
    requires Good(s) && Halves(s)
    ensures Halves(Next(c, s, act))
  {
    hide Moved, Half;
    var s' := Next(c, s, act);
    forall t
      ensures Half(s', At(s', t))
    {
      if act == Move(t) {
        MovedHalf(c, s, t);
      } else if act == Begin(t) {
        BegunHalf(c, s, t);
      } else {
        OthersStay(c, s, act, t);
        CapsStay(c, s, act);
        HalfStays(s, s', At(s, t));
      }
    }
  }

  lemma BegunHalf(c: Config, s: State, t: Tid)
    requires Good(s) && Half(s, At(s, t))
    ensures var s' := Next(c, s, Begin(t)); Half(s', At(s', t))
  {
  }

  lemma HalfStays(s: State, s': State, p: Pc)
    requires Half(s, p) && |s.tables| <= |s'.tables|
    requires forall i | 0 <= i < |s.tables| :: s'.tables[i].cap == s.tables[i].cap
    ensures Half(s', p)
  {
  }

  /** Every table but the newest has been outgrown, and none is larger than it had to be. */
  ghost predicate Outgrown(c: Config, s: State) {
    && |s.tables| > 0 && s.tables[0].cap == c.cap0
    && (forall i | 0 <= i < |s.tables| - 1 :: s.tables[i].cap / 2 <= s.count)
    && (forall i | 1 <= i < |s.tables| :: s.tables[i].cap == 2 * s.tables[i - 1].cap || s.tables[i].cap / 4 <= s.count)
  }

  lemma MovedTables(c: Config, s: State, t: Tid)
    requires Good(s)
    ensures var s' := Moved(c, s, t);
      && s.count <= s'.count && |s.tables| <= |s'.tables| <= |s.tables| + 1
      && (forall i | 0 <= i < |s.tables| :: s'.tables[i].cap == s.tables[i].cap)
      && (|s'.tables| > |s.tables| ==>
        var p := At(s, t);
        && p.Install? && p.main < |s.tables| && s'.count == s.count
        && s'.tables[|s.tables|].cap == NewCapacity(p.n, 2 * s.tables[p.main].cap))
  {
    hide Slot, Quota, NewCapacity, Key;
  }

  lemma KnowCount(c: Config, s: State, a: Aux, t: Tid)
    requires Inv(c, s, a) && At(s, t).Install?
    ensures At(s, t).n <= s.count && At(s, t).main == |s.tables| - 1
  {
    hide TablesOk, ValsOk;
    assert PcOk(c, s.tables, s.busy, a, t, At(s, t));
  }

  lemma OutgrownStep(c: Config, s: State, a: Aux, t: Tid)
    requires Good(s) && Inv(c, s, a) && Halves(s) && Outgrown(c, s)
    ensures Outgrown(c, Moved(c, s, t))
  {
    hide Inv, Moved;
    MovedTables(c, s, t);
    if At(s, t).Install? {
      KnowCount(c, s, a, t);
      assert Half(s, At(s, t));
    }
  }

  lemma {:induction false} AllOutgrown(c: Config, acts: seq<Act>)
    requires c.cap0 > 0 && IsPow2(c.cap0)
    ensures Halves(Exec(c, acts)) && Outgrown(c, Exec(c, acts))
  {
    hide Moved, Inv, Halves, Outgrown;
    if acts == [] {
      FirstOutgrown(c);
    } else {
      var n := |acts| - 1;
      AllOutgrown(c, acts[..n]);
      var s := Exec(c, acts[..n]);
      HalvesStep(c, s, acts[n]);
      var a := ExecInv(c, acts[..n]);
      if acts[n].Move? { OutgrownStep(c, s, a, acts[n].t); } else { OutgrownBegin(c, s, acts[n].t); }
    }
  }

  lemma OutgrownBegin(c: Config, s: State, t: Tid)
    requires Good(s) && Outgrown(c, s)
    ensures Outgrown(c, Next(c, s, Begin(t)))
  {
  }

  lemma FirstOutgrown(c: Config)
    ensures Halves(Init(c)) && Outgrown(c, Init(c))
  {
  }

  /**
   In every run the newest table is the first one, or no larger than about four times the number of
   threads counted, and every older one is at most about twice that number.
   */
  lemma TablesBounded(c: Config, acts: seq<Act>, i: nat)
    requires c.cap0 > 0 && IsPow2(c.cap0) && i < |Exec(c, acts).tables|
    ensures var s := Exec(c, acts);
      && (i + 1 < |s.tables| ==> s.tables[i].cap <= 2 * s.count + 1)
      && (i > 0 ==> s.tables[i].cap <= 4 * s.count + 3)
      && (i == 0 ==> s.tables[i].cap == c.cap0)
  {
    hide Exec;
    AllOutgrown(c, acts);
    var s := Exec(c, acts);
    if i > 0 { assert s.tables[i - 1].cap / 2 <= s.count; }
  }

  /** The resize flag is taken only by a thread that counts at least half of the table it has seen. */
  lemma FlagWhenHalfFull(c: Config, acts: seq<Act>, n: nat)
    requires c.cap0 > 0 && IsPow2(c.cap0) && n < |acts|
    requires !Before(c, acts, n).busy && Before(c, acts, n + 1).busy
    ensures acts[n].Move?
    ensures var s := Before(c, acts, n); var p := At(s, acts[n].t);
      p.TestSet? && p.main < |s.tables| && p.n >= s.tables[p.main].cap / 2
  {
    hide Exec, Halves, Outgrown, Next;
    var s := Before(c, acts, n);
    StepOf(c, acts, n);
    AllOutgrown(c, acts[..n]);
    Flags(c, s, acts[n]);
    KnowHalf(s, acts[n].t);
  }

  lemma KnowHalf(s: State, t: Tid)
    requires Halves(s)
    ensures Half(s, At(s, t))
  {
  }

  lemma Flags(c: Config, s: State, act: Act)
    requires Good(s) && !s.busy && Next(c, s, act).busy
    ensures act.Move? && At(s, act.t).TestSet?
  {
    hide Slot, Quota, NewCapacity, Key, Blank;
  }

  function Newest(s: State): Table
    requires Good(s)
  {
    s.tables[|s.tables| - 1]
  }

  /** Thread t counts as number n, and even the newest table is three quarters full for it. */
  ghost predicate Crowded(s: State, t: Tid)
    requires Good(s)
  {
    var q := Quota(Newest(s).cap);
    match At(s, t)
    case Look(_, _, _) => !Present(s.tables, t) && s.count + 1 >= q
    case Count(_) => s.count + 1 >= q
    case Try(_, n) => n >= q
    case TestSet(_, n) => n >= q
    case Decide(_, n) => n >= q
    case _ => false
  }

  /** Thread t needs a bigger table, and another thread is to make it. */
  ghost predicate Waits(s: State, t: Tid)
    requires Good(s)
  {
    s.busy && !Resizing(At(s, t)) && Crowded(s, t)
  }

  /** Stages of a call that nobody disturbs, the last ones first. */
  function Stage(s: State, t: Tid): nat
    requires Good(s)
  {
    match At(s, t)
    case Idle => 0
    case InsVal(_, _, _) => 3
    case Insert(_, _, _) => 4
    case InsCas(_, _, _) => 4
    case Unlock(_, _) => 11
    case Install(_, _) => 12
    case Locked(_) => 13
    case Decide(main, n) => if Serves(s, main, n) then 5 else 16
    case TestSet(main, n) => if s.busy && !Serves(s, main, n) then 17 else 14
    case Try(main, n) => if s.busy && !Serves(s, main, n) then 18 else 15
    case Count(_) => 19
    case Look(_, _, _) => 20
  }

  /** Table main takes a thread that counts as number n. */
  predicate Serves(s: State, main: nat, n: nat) { main < |s.tables| && n < Quota(s.tables[main].cap) }

  /** Within a stage: the tables and the slots still to be probed. */
  function Tables(p: Pc): nat { if p.Look? && p.h >= 0 then p.h else 0 }

  function Slots(s: State, p: Pc): int {
    if p.Look? && 0 <= p.h < |s.tables| then s.tables[p.h].cap - p.step
    else if p.Insert? && p.main < |s.tables| then 2 * (s.tables[p.main].cap - p.step) + 1
    else if p.InsCas? && p.main < |s.tables| then 2 * (s.tables[p.main].cap - p.step)
    else 0
  }

  /** Thread t goes on alone. */
  function Alone(n: nat, t: Tid): seq<Act> { seq(n, _ => Move(t)) }

  lemma Append(c: Config, acts: seq<Act>, act: Act)
    requires c.cap0 > 0
    ensures Exec(c, acts + [act]) == Next(c, Exec(c, acts), act)
  {
    assert (acts + [act])[..|acts|] == acts;
  }

  /** The next step brings the thread nearer to the end of its call. */
  ghost predicate Closer(s: State, s': State, t: Tid)
    requires Good(s) && Good(s')
  {
    || Stage(s', t) < Stage(s, t)
    || (Stage(s', t) == Stage(s, t) && Tables(At(s', t)) < Tables(At(s, t)))
    || (Stage(s', t) == Stage(s, t) && Tables(At(s', t)) == Tables(At(s, t)) &&
        0 <= Slots(s', At(s', t)) < Slots(s, At(s, t)))
  }

  lemma LookNearer(c: Config, s: State, a: Aux, t: Tid)
    requires Good(s) && Inv(c, s, a) && At(s, t).Look?
    ensures var s' := Moved(c, s, t); var p, p' := At(s, t), At(s', t);
      || Stage(s', t) < Stage(s, t)
      || (Stage(s', t) == Stage(s, t) && Tables(p') < Tables(p))
      || (Stage(s', t) == Stage(s, t) && Tables(p') == Tables(p) && Slots(s', p') < Slots(s, p))
  {
    hide ValsOk, CountsOk, Path, IsPow2, Exp2, TableOk, Slot;
    var p := At(s, t);
    assert PcOk(c, s.tables, s.busy, a, t, p);
    hide Threads;
    assert s.tables[p.h].prev == p.h - 1;
  }

  lemma KnowMain(c: Config, s: State, a: Aux, t: Tid)
    requires Inv(c, s, a)
    ensures var p := At(s, t);
      && (p.Idle? || p.Locked? || p.main < |s.tables|)
      && (Resizing(p) ==> s.busy)
      && forall i | 0 <= i < |s.tables| :: s.tables[i].cap <= s.tables[|s.tables| - 1].cap
  {
    hide ValsOk, CountsOk, TableOk;
    assert PcOk(c, s.tables, s.busy, a, t, At(s, t));
  }

  /** From the moment the thread is counted until it has a table to go into. */
  lemma ResizeNearer(c: Config, s: State, a: Aux, t: Tid)
    requires Good(s) && Inv(c, s, a) && Fits(s) && !Waits(s, t)
    requires At(s, t).Count? || Counted(At(s, t))
    ensures Stage(Moved(c, s, t), t) < Stage(s, t)
  {
    hide Inv, Fits, NewCapacity;
    KnowMain(c, s, a, t);
    if At(s, t).Unlock? { assert At(s, t).n < s.tables[At(s, t).main].cap / 2 by { KnowFits(s, t); } }
  }

  lemma KnowFits(s: State, t: Tid)
    requires Fits(s) && At(s, t).Unlock?
    ensures At(s, t).main < |s.tables| && At(s, t).n < s.tables[At(s, t).main].cap / 2
  {
  }

  lemma InsertNearer(c: Config, s: State, a: Aux, t: Tid)
    requires Good(s) && Inv(c, s, a) && (At(s, t).Insert? || At(s, t).InsCas? || At(s, t).InsVal?)
    ensures var s' := Moved(c, s, t); var p, p' := At(s, t), At(s', t);
      || Stage(s', t) < Stage(s, t)
      || (Stage(s', t) == Stage(s, t) && Tables(p') == Tables(p) && Slots(s', p') < Slots(s, p))
  {
    hide ValsOk, CountsOk, Path, IsPow2, Exp2, TableOk, Slot;
    var p := At(s, t);
    assert PcOk(c, s.tables, s.busy, a, t, p);
  }

  /** A thread that reaches the end of the oldest table occurs in none. */
  lemma EndAbsent(c: Config, s: State, a: Aux, t: Tid)
    requires Good(s) && Inv(c, s, a) && At(s, t).Look? && At(Moved(c, s, t), t).Count?
    ensures !Present(s.tables, t)
  {
    hide Inv, Moved;
    var a' := KeepMove(c, s, a, t);
    KnowAbsent(c, Moved(c, s, t), a', t);
    LookSame(c, s, t);
  }

  lemma KnowAbsent(c: Config, s: State, a: Aux, t: Tid)
    requires Inv(c, s, a) && At(s, t).Count?
    ensures !Present(s.tables, t)
  {
    hide TablesOk, ValsOk, CountsOk;
    assert PcOk(c, s.tables, s.busy, a, t, At(s, t));
  }

  lemma LookSame(c: Config, s: State, t: Tid)
    requires Good(s) && At(s, t).Look?
    ensures var s' := Moved(c, s, t); s'.tables == s.tables && s'.count == s.count && s'.busy == s.busy
    ensures At(Moved(c, s, t), t).Look? || At(Moved(c, s, t), t).Count? || At(Moved(c, s, t), t).Insert? ||
      At(Moved(c, s, t), t).Idle?
  {
    hide Slot;
  }

  lemma LookWaiting(c: Config, s: State, a: Aux, t: Tid)
    requires Good(s) && Inv(c, s, a) && At(s, t).Look?
    ensures Waits(Moved(c, s, t), t) == Waits(s, t)
  {
    hide Inv, Present, Moved, Quota;
    LookSame(c, s, t);
    if At(Moved(c, s, t), t).Count? { EndAbsent(c, s, a, t); }
    if !At(Moved(c, s, t), t).Look? && !At(Moved(c, s, t), t).Count? { FoundPresent(c, s, t); }
  }

  lemma RestWaiting(c: Config, s: State, t: Tid)
    requires Good(s) && At(s, t) != Idle && !At(s, t).Look?
    requires At(s, t).Locked? || At(s, t).main < |s.tables|
    requires Resizing(At(s, t)) ==> s.busy
    requires forall i | 0 <= i < |s.tables| :: s.tables[i].cap <= s.tables[|s.tables| - 1].cap
    ensures Waits(Moved(c, s, t), t) == Waits(s, t)
  {
    hide Present, NewCapacity, Slot, Key, Blank;
  }

  /** Whether a thread that goes on alone waits for another one does not change. */
  lemma WaitingSame(c: Config, s: State, a: Aux, t: Tid)
    requires Good(s) && Inv(c, s, a) && At(s, t) != Idle
    ensures Waits(Moved(c, s, t), t) == Waits(s, t)
  {
    hide Inv, Moved, Waits;
    KnowMain(c, s, a, t);
    if At(s, t).Look? { LookWaiting(c, s, a, t); } else { RestWaiting(c, s, t); }
  }

  lemma FoundPresent(c: Config, s: State, t: Tid)
    requires Good(s) && At(s, t).Look? && (At(Moved(c, s, t), t).Insert? || At(Moved(c, s, t), t).Idle?)
    ensures Present(s.tables, t)
  {
    var p := At(s, t);
    assert s.tables[p.h].keys[Slot(c, t, s.tables[p.h].cap, p.step)] == Some(t);
  }

  lemma Nearer(c: Config, acts: seq<Act>, t: Tid)
    requires c.cap0 > 0 && IsPow2(c.cap0) && At(Exec(c, acts), t) != Idle && !Waits(Exec(c, acts), t)
    ensures Closer(Exec(c, acts), Exec(c, acts + [Move(t)]), t) && !Waits(Exec(c, acts + [Move(t)]), t)
  {
    hide Inv, Exec, Stage, Waits, Moved;
    var s := Exec(c, acts);
    var a := ExecInv(c, acts);
    Append(c, acts, Move(t));
    AllFit(c, acts);
    WaitingSame(c, s, a, t);
    ProbesTerminate(c, acts + [Move(t)], t);
    match At(s, t)
    case Look(_, _, _) => LookNearer(c, s, a, t);
    case Insert(_, _, _) => InsertNearer(c, s, a, t);
    case InsCas(_, _, _) => InsertNearer(c, s, a, t);
    case InsVal(_, _, _) => InsertNearer(c, s, a, t);
    case _ => ResizeNearer(c, s, a, t);
  }

  lemma {:induction false} Finishes(c: Config, acts: seq<Act>, t: Tid) returns (n: nat)
    requires c.cap0 > 0 && IsPow2(c.cap0) && !Waits(Exec(c, acts), t)
    ensures At(Exec(c, acts + Alone(n, t)), t) == Idle
    decreases Stage(Exec(c, acts), t), Tables(At(Exec(c, acts), t)), Slots(Exec(c, acts), At(Exec(c, acts), t))
  {
    hide Exec, Stage, Waits, Tables, Slots;
    if At(Exec(c, acts), t) == Idle {
      n := 0;
      assert acts + Alone(0, t) == acts;
    } else {
      Nearer(c, acts, t);
      n := Finishes(c, acts + [Move(t)], t);
      assert acts + Alone(n + 1, t) == (acts + [Move(t)]) + Alone(n, t);
      n := n + 1;
    }
  }

  lemma {:induction false} WaitsOn(c: Config, acts: seq<Act>, t: Tid, n: nat)
    requires c.cap0 > 0 && IsPow2(c.cap0) && Waits(Exec(c, acts), t)
    ensures Waits(Exec(c, acts + Alone(n, t)), t)
  {
    hide Inv, Exec, Waits, Moved;
    if n == 0 {
      assert acts + Alone(0, t) == acts;
    } else {
      WaitsOn(c, acts, t, n - 1);
      var before := acts + Alone(n - 1, t);
      assert acts + Alone(n, t) == before + [Move(t)];
      Append(c, before, Move(t));
      var a := ExecInv(c, before);
      WaitsInside(Exec(c, before), t);
      WaitingSame(c, Exec(c, before), a, t);
    }
  }

  lemma WaitsInside(s: State, t: Tid)
    requires Good(s) && Waits(s, t)
    ensures At(s, t) != Idle
  {
  }

  /**
   From every state of every run, a thread that goes on alone ends its call if and only if it is not
   waiting for another one to make a bigger table.
   */
  lemma EndsAlone(c: Config, acts: seq<Act>, t: Tid)
    requires c.cap0 > 0 && IsPow2(c.cap0)
    ensures (exists n :: At(Exec(c, acts + Alone(n, t)), t) == Idle) <==> !Waits(Exec(c, acts), t)
  {
    hide Exec, Waits;
    if Waits(Exec(c, acts), t) {
      forall n: nat
        ensures At(Exec(c, acts + Alone(n, t)), t) != Idle
      {
        WaitsOn(c, acts, t, n);
        WaitsInside(Exec(c, acts + Alone(n, t)), t);
      }
    } else {
      var n := Finishes(c, acts, t);
    }
  }

  /** A thread enters and comes as far as the resize flag. */
  function Enters(t: Tid): seq<Act> { [Begin(t), Move(t), Move(t), Move(t), Move(t)] }

  /** The first table, of one slot, and nobody inside but those in pc. */
  predicate Narrow(s: State) { s.tables == [Blank(1, -1)] }

  lemma NarrowSteps(c: Config, s: State, t: Tid, n: nat)
    requires Good(s) && Narrow(s)
    ensures At(s, t) == Look(0, 0, 0) ==> Moved(c, s, t) == Goto(s, t, Count(0))
    ensures At(s, t) == Try(0, n) ==> Moved(c, s, t) == Goto(s, t, TestSet(0, n))
  {
  }

  lemma GotoTwice(s: State, t: Tid, p: Pc, q: Pc)
    ensures Goto(Goto(s, t, p), t, q) == Goto(s, t, q) && At(Goto(s, t, p), t) == p
  {
  }

  /** What that does in a table of one slot, which is never big enough. */
  lemma EntersNarrow(c: Config, acts: seq<Act>, t: Tid)
    requires c.cap0 > 0 && Narrow(Exec(c, acts)) && At(Exec(c, acts), t) == Idle
    ensures var s, s' := Exec(c, acts), Exec(c, acts + Enters(t));
      && Narrow(s') && s'.busy && s'.count == s.count + 1
      && s'.pc == s.pc[t := if s.busy then Decide(0, s'.count) else Locked(s'.count)]
  {
    hide Exec, Moved;
    var s := Exec(c, acts);
    var k := s.(count := s.count + 1);
    var a1 := acts + [Begin(t)];
    var a2 := a1 + [Move(t)];
    var a3 := a2 + [Move(t)];
    var a4 := a3 + [Move(t)];
    Append(c, acts, Begin(t));
    Append(c, a1, Move(t));
    GotoTwice(s, t, Look(0, 0, 0), Count(0));
    NarrowSteps(c, Exec(c, a1), t, 0);
    assert Exec(c, a2) == Goto(s, t, Count(0));
    Append(c, a2, Move(t));
    assert Exec(c, a3) == Goto(k, t, Try(0, k.count)) by { Counting(c, s, t); }
    Append(c, a3, Move(t));
    GotoTwice(k, t, Try(0, k.count), TestSet(0, k.count));
    NarrowSteps(c, Exec(c, a3), t, k.count);
    assert Exec(c, a4) == Goto(k, t, TestSet(0, k.count));
    Append(c, a4, Move(t));
    Flagging(c, k, t);
    assert acts + Enters(t) == a4 + [Move(t)];
  }

  lemma Counting(c: Config, s: State, t: Tid)
    requires Good(s)
    ensures var k := s.(count := s.count + 1); Moved(c, Goto(s, t, Count(0)), t) == Goto(k, t, Try(0, k.count))
  {
    GotoTwice(s, t, Count(0), Try(0, s.count + 1));
  }

  lemma Flagging(c: Config, s: State, t: Tid)
    requires Good(s)
    ensures Moved(c, Goto(s, t, TestSet(0, s.count)), t) ==
      Goto(s.(busy := true), t, if s.busy then Decide(0, s.count) else Locked(s.count))
  {
  }

  /** It happens: thread 1 spins for as long as thread 0, which has set the flag, does not move. */
  lemma Waiting(hash: Tid -> nat)
    ensures Waits(Exec(Config(1, hash), Enters(0) + Enters(1)), 1)
  {
    var c := Config(1, hash);
    var none: seq<Act> := [];
    EntersNarrow(c, none, 0);
    assert none + Enters(0) == Enters(0);
    EntersNarrow(c, Enters(0), 1);
  }
}
