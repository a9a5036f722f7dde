/**
 The reference-counted, compare-and-swap free list of ConcurrentQueue.

 Every atomic access of `add`, `try_get` and `add_knowing_refcount_is_zero` is one
 step of one thread; a run interleaves the steps of any number of threads.  A node
 carries one 32-bit word, `freeListRefs`, whose top bit says "should be on the free
 list" and whose low 31 bits count references, and one `freeListNext` link.
 */
module FreeList {
  import opened Wrappers

  type Tid = nat
  type Node = nat
  type Link = Option<Node>

  const SHOULD_BE_ON_FREELIST := 0x8000_0000
  const WORD := 0x1_0000_0000
  // One reference per thread and one for the list must stay below the flag bit.
  const MAX_THREADS := SHOULD_BE_ON_FREELIST - 2

  /** Where add_knowing_refcount_is_zero returns to: out of `add`, or back into try_get's loop. */
  datatype Cont = ToCaller | ToLoop(head: Link)

  /** Program counters; the comment names the atomic access about to be made. */
  datatype Pc =
    | Idle                                 // outside the free list
    | Start                                // try_get: load freeListHead
    | Top(h: Link)                         // loop test, then load head->freeListRefs
    | CasRefs(n: Node, r: nat)             // CAS freeListRefs from r to r + 1
    | ReadNext(n: Node)                    // load freeListNext
    | CasHead(n: Node, nx: Link)           // CAS freeListHead from n to nx
    | Release2(n: Node)                    // got n: drop our reference and the list's
    | Release1(n: Node, h: Link)           // lost the race: drop our reference
    | LoadHead(n: Node, k: Cont)           // add: load freeListHead
    | SetNext(n: Node, h: Link, k: Cont)   // store freeListNext
    | StoreRefs(n: Node, h: Link, k: Cont) // store freeListRefs = 1
    | CasNode(n: Node, h: Link, k: Cont)   // CAS freeListHead from h to n
    | Retract(n: Node, h: Link, k: Cont)   // add failed: give the list's reference back

  /** The shared words, the nodes held by callers, and every thread's program counter. */
  datatype State = State(
    head: Link,
    refs: map<Node, nat>,
    next: map<Node, Link>,
    held: set<Node>,
    pc: map<Tid, Pc>)

  function After(k: Cont): Pc {
    match k
    case ToCaller => Idle
    case ToLoop(h) => Top(h)
  }

  function Add32(x: nat, d: int): nat { (x + d) % WORD }

  /** No carry and no borrow as long as the exact sum is a 32-bit value. */
  lemma NoWrap(x: nat, d: int)
    requires 0 <= x + d < WORD
    ensures Add32(x, d) == x + d
  {}

  ghost predicate Init(s: State, threads: set<Tid>) {
    && s.head == None && s.refs == map[] && s.next == map[] && s.held == {}
    && s.pc.Keys == threads
    && forall t | t in threads :: s.pc[t] == Idle
  }

  /** A caller makes a new block: both freeListRefs and freeListNext are zero. */
  ghost predicate Create(s: State, s': State, t: Tid, n: Node) {
    && n !in s.refs
    && s' == s.(refs := s.refs[n := 0], next := s.next[n := None], held := s.held + {n})
  }

  /**
   `add(n)`, for a node that some caller holds: any thread outside the free list may give it
   back, not only the one that took it, which may be inside another `try_get` by now.
   */
  ghost predicate Give(s: State, s': State, t: Tid, n: Node) {
    && n in s.held && n in s.refs
    && s' == s.(
      refs := s.refs[n := Add32(s.refs[n], SHOULD_BE_ON_FREELIST)],
      held := s.held - {n},
      pc := s.pc[t := if s.refs[n] == 0 then LoadHead(n, ToCaller) else Idle])
  }

  /** The one atomic step that thread t takes next. */
  ghost predicate Step(s: State, s': State, t: Tid)
    requires t in s.pc
  {
    match s.pc[t]
    case Idle =>
      || (exists n :: Create(s, s', t, n))
      || (exists n :: Give(s, s', t, n))
      || s' == s.(pc := s.pc[t := Start])
    case Start =>
      s' == s.(pc := s.pc[t := Top(s.head)])
    case Top(h) =>
      if h == None then s' == s.(pc := s.pc[t := Idle])
      else
        && h.value in s.refs
        && var r := s.refs[h.value];
        s' == s.(pc := s.pc[t := if r % SHOULD_BE_ON_FREELIST == 0 then Start else CasRefs(h.value, r)])
    case CasRefs(n, r) =>
      && n in s.refs
      && if s.refs[n] == r
         then s' == s.(refs := s.refs[n := Add32(r, 1)], pc := s.pc[t := ReadNext(n)])
         else s' == s.(pc := s.pc[t := Start])
    case ReadNext(n) =>
      && n in s.next
      && s' == s.(pc := s.pc[t := CasHead(n, s.next[n])])
    case CasHead(n, nx) =>
      if s.head == Some(n)
      then s' == s.(head := nx, pc := s.pc[t := Release2(n)])
      else s' == s.(pc := s.pc[t := Release1(n, s.head)])
    case Release2(n) =>
      && n in s.refs
      && s' == s.(refs := s.refs[n := Add32(s.refs[n], -2)], held := s.held + {n}, pc := s.pc[t := Idle])
    case Release1(n, h) =>
      && n in s.refs
      && s' == s.(
        refs := s.refs[n := Add32(s.refs[n], -1)],
        pc := s.pc[t := if s.refs[n] == SHOULD_BE_ON_FREELIST + 1 then LoadHead(n, ToLoop(h)) else Top(h)])
    case LoadHead(n, k) =>
      s' == s.(pc := s.pc[t := SetNext(n, s.head, k)])
    case SetNext(n, h, k) =>
      && n in s.next
      && s' == s.(next := s.next[n := h], pc := s.pc[t := StoreRefs(n, h, k)])
    case StoreRefs(n, h, k) =>
      && n in s.refs
      && s' == s.(refs := s.refs[n := 1], pc := s.pc[t := CasNode(n, h, k)])
    case CasNode(n, h, k) =>
      if s.head == h
      then s' == s.(head := Some(n), pc := s.pc[t := After(k)])
      else s' == s.(pc := s.pc[t := Retract(n, s.head, k)])
    case Retract(n, h, k) =>
      && n in s.refs
      && s' == s.(
        refs := s.refs[n := Add32(s.refs[n], SHOULD_BE_ON_FREELIST - 1)],
        pc := s.pc[t := if s.refs[n] == 1 then SetNext(n, h, k) else After(k)])
  }

  ghost predicate Next(s: State, s': State) {
    exists t :: t in s.pc && Step(s, s', t)
  }

  ghost predicate Run(r: seq<State>, threads: set<Tid>) {
    && |r| > 0 && Init(r[0], threads)
    && forall i {:trigger r[i]} | 0 <= i < |r| - 1 :: Next(r[i], r[i + 1])
  }

  // ---------- The invariant ----------

  /** A thread holds a counted reference to n from its CAS on the word until it releases it. */
  predicate Holds(p: Pc, n: Node) {
    match p
    case ReadNext(m) => m == n
    case CasHead(m, _) => m == n
    case Release2(m) => m == n
    case Release1(m, _) => m == n
    case _ => false
  }

  function Holders(pc: map<Tid, Pc>, n: Node): set<Tid> {
    set t | t in pc && Holds(pc[t], n)
  }

  /** The phase a node is in, with the thread that is answerable for it. */
  datatype Status =
    | Out               // in a caller's hands
    | Pending           // to be added by whoever drops the last reference
    | Zero(t: Tid)      // t is adding it; nobody references it
    | Armed(t: Tid)     // t has set the word to 1 and is about to link it in
    | OnList
    | Taken(t: Tid)     // t has unlinked it

  function Flag(x: Status): nat { if x.Pending? || x.Zero? then SHOULD_BE_ON_FREELIST else 0 }
  function ListRef(x: Status): nat { if x.Armed? || x.OnList? || x.Taken? then 1 else 0 }

  /** The witness that links the words to the list they represent. */
  datatype Aux = Aux(list: seq<Node>, st: map<Node, Status>)

  function LinkAt(l: seq<Node>, i: nat): Link { if i < |l| then Some(l[i]) else None }

  ghost predicate IsList(head: Link, next: map<Node, Link>, l: seq<Node>) {
    && head == LinkAt(l, 0)
    && (forall n | n in l :: n in next)
    && (forall i {:trigger next[l[i]]} | 0 <= i < |l| :: next[l[i]] == LinkAt(l, i + 1))
    && (forall i, j | 0 <= i < j < |l| :: l[i] != l[j])
  }

  ghost predicate ListInv(s: State, a: Aux) {
    && IsList(s.head, s.next, a.list)
    && forall n :: n in a.list <==> n in a.st && a.st[n] == OnList
  }

  ghost predicate WordInv(s: State, a: Aux) {
    forall n | n in a.st :: n in s.refs && s.refs[n] == Flag(a.st[n]) + ListRef(a.st[n]) + |Holders(s.pc, n)|
  }

  ghost predicate LinkOk(h: Link, a: Aux) { h.Some? ==> h.value in a.st }
  ghost predicate ContOk(k: Cont, a: Aux) { k.ToLoop? ==> LinkOk(k.head, a) }

  /** What a thread may rely on at each program counter. */
  ghost predicate PcOk(p: Pc, t: Tid, next: map<Node, Link>, a: Aux)
    requires next.Keys == a.st.Keys
  {
    match p
    case Idle => true
    case Start => true
    case Top(h) => LinkOk(h, a)
    case CasRefs(n, r) => n in a.st && r % SHOULD_BE_ON_FREELIST != 0
    case ReadNext(n) => n in a.st
    case CasHead(n, nx) => n in a.st && next[n] == nx
    case Release2(n) => n in a.st && a.st[n] == Taken(t)
    case Release1(n, h) => n in a.st && LinkOk(h, a)
    case LoadHead(n, k) => n in a.st && a.st[n] == Zero(t) && ContOk(k, a)
    case SetNext(n, h, k) => n in a.st && a.st[n] == Zero(t) && LinkOk(h, a) && ContOk(k, a)
    case StoreRefs(n, h, k) => n in a.st && a.st[n] == Zero(t) && next[n] == h && LinkOk(h, a) && ContOk(k, a)
    case CasNode(n, h, k) => n in a.st && a.st[n] == Armed(t) && next[n] == h && LinkOk(h, a) && ContOk(k, a)
    case Retract(n, h, k) => n in a.st && a.st[n] == Armed(t) && LinkOk(h, a) && ContOk(k, a)
  }

  predicate Adding(p: Pc, n: Node) {
    match p
    case LoadHead(m, _) => m == n
    case SetNext(m, _, _) => m == n
    case StoreRefs(m, _, _) => m == n
    case _ => false
  }

  predicate Arming(p: Pc, n: Node) {
    match p
    case CasNode(m, _, _) => m == n
    case Retract(m, _, _) => m == n
    case _ => false
  }

  ghost predicate StatusOk(s: State, n: Node, x: Status) {
    && (x == Out <==> n in s.held)
    && match x
       case Out => true
       case Pending => Holders(s.pc, n) != {}
       case Zero(t) => Holders(s.pc, n) == {} && t in s.pc && Adding(s.pc[t], n)
       case Armed(t) => t in s.pc && Arming(s.pc[t], n)
       case OnList => true
       case Taken(t) => t in s.pc && s.pc[t] == Release2(n)
  }

  ghost predicate Inv(s: State, a: Aux) {
    && s.refs.Keys == s.next.Keys == a.st.Keys && s.held <= a.st.Keys
    && |s.pc.Keys| <= MAX_THREADS
    && ListInv(s, a) && WordInv(s, a)
    && (forall t | t in s.pc :: PcOk(s.pc[t], t, s.next, a))
    && (forall n | n in a.st :: StatusOk(s, n, a.st[n]))
  }

  // ---------- Holders under one thread's move ----------

  lemma HoldersMove(pc: map<Tid, Pc>, t: Tid, p: Pc, n: Node)
    requires t in pc
    ensures var h, h' := Holders(pc, n), Holders(pc[t := p], n);
      && (Holds(pc[t], n) == Holds(p, n) ==> h' == h)
      && (!Holds(pc[t], n) && Holds(p, n) ==> h' == h + {t} && |h'| == |h| + 1)
      && (Holds(pc[t], n) && !Holds(p, n) ==> h' == h - {t} && t in h && |h'| == |h| - 1)
  {
    var h, h' := Holders(pc, n), Holders(pc[t := p], n);
    if Holds(p, n) {
      assert h' == h + {t};
      if Holds(pc[t], n) { assert h' == h; }
    } else {
      assert h' == h - {t};
    }
  }

  lemma HoldersFew(pc: map<Tid, Pc>, n: Node)
    ensures |Holders(pc, n)| <= |pc.Keys|
  {
    Subset(Holders(pc, n), pc.Keys);
  }

  lemma Subset(x: set<Tid>, y: set<Tid>)
    requires x <= y
    ensures |x| <= |y|
  {
    assert y == x + (y - x);
  }

  // ---------- Every step keeps the invariant ----------

  /** The one node that a program counter holds, adds or has just taken. */
  function About(p: Pc): Link {
    match p
    case ReadNext(n) => Some(n)
    case CasHead(n, _) => Some(n)
    case Release2(n) => Some(n)
    case Release1(n, _) => Some(n)
    case LoadHead(n, _) => Some(n)
    case SetNext(n, _, _) => Some(n)
    case StoreRefs(n, _, _) => Some(n)
    case CasNode(n, _, _) => Some(n)
    case Retract(n, _, _) => Some(n)
    case _ => None
  }

  predicate OnlyAbout(p: Pc, n: Node) { About(p) == None || About(p) == Some(n) }

  /** Thread t may change the phase of a node it is answerable for, or that nobody is. */
  predicate MayChange(x: Status, t: Tid) {
    match x
    case Zero(u) => u == t
    case Armed(u) => u == t
    case Taken(u) => u == t
    case _ => true
  }

  /** s' differs from s in thread t's program counter and in node n, whose phase is now x. */
  ghost predicate Moves(s: State, s': State, a: Aux, a': Aux, t: Tid, n: Node) {
    && t in s.pc && n in a.st && n in a'.st && t in s'.pc && n in s'.refs && n in s'.next
    && OnlyAbout(s.pc[t], n) && OnlyAbout(s'.pc[t], n)
    && s'.pc == s.pc[t := s'.pc[t]]
    && s'.refs == s.refs[n := s'.refs[n]]
    && s'.next == s.next[n := s'.next[n]]
    && s'.held - {n} == s.held - {n}
    && a'.st == a.st[n := a'.st[n]]
  }

  lemma FrameHolders(s: State, s': State, a: Aux, a': Aux, t: Tid, n: Node, m: Node)
    requires Moves(s, s', a, a', t, n) && m != n
    ensures Holders(s'.pc, m) == Holders(s.pc, m)
  {
    HoldersMove(s.pc, t, s'.pc[t], m);
  }

  lemma FrameStatus(s: State, s': State, a: Aux, a': Aux, t: Tid, n: Node, m: Node)
    requires Moves(s, s', a, a', t, n) && m != n && m in a.st && StatusOk(s, m, a.st[m])
    ensures StatusOk(s', m, a'.st[m])
  {
    FrameHolders(s, s', a, a', t, n, m);
    assert m in s.held <==> m in s.held - {n};
    assert m in s'.held <==> m in s'.held - {n};
  }

  lemma FramePc(s: State, s': State, a: Aux, a': Aux, t: Tid, n: Node, u: Tid)
    requires Moves(s, s', a, a', t, n) && u != t && u in s.pc
    requires s.next.Keys == a.st.Keys && PcOk(s.pc[u], u, s.next, a)
    requires a'.st[n] != a.st[n] ==> MayChange(a.st[n], t)
    requires s'.next[n] != s.next[n] ==> Holders(s.pc, n) == {} && a.st[n] == Zero(t)
    ensures s'.next.Keys == a'.st.Keys && PcOk(s'.pc[u], u, s'.next, a')
  {
    if Holds(s.pc[u], n) { assert u in Holders(s.pc, n); }
  }

  lemma FrameWords(s: State, s': State, a: Aux, a': Aux, t: Tid, n: Node)
    requires Moves(s, s', a, a', t, n) && WordInv(s, a) && s.refs.Keys == a.st.Keys
    requires s'.refs[n] == Flag(a'.st[n]) + ListRef(a'.st[n]) + |Holders(s'.pc, n)|
    ensures WordInv(s', a')
  {
    hide Holders;
    forall m | m in a'.st ensures s'.refs[m] == Flag(a'.st[m]) + ListRef(a'.st[m]) + |Holders(s'.pc, m)| {
      if m != n { FrameHolders(s, s', a, a', t, n, m); }
    }
  }

  /** One thread's step on one node: what is left to show is about that thread and that node. */
  lemma Frame(s: State, s': State, a: Aux, a': Aux, t: Tid, n: Node)
    requires Inv(s, a) && Moves(s, s', a, a', t, n)
    requires a'.st[n] != a.st[n] ==> MayChange(a.st[n], t)
    requires s'.next[n] != s.next[n] ==> Holders(s.pc, n) == {} && a.st[n] == Zero(t)
    requires ListInv(s', a')
    requires s'.next.Keys == a'.st.Keys && PcOk(s'.pc[t], t, s'.next, a') && StatusOk(s', n, a'.st[n])
    requires s'.refs[n] == Flag(a'.st[n]) + ListRef(a'.st[n]) + |Holders(s'.pc, n)|
    ensures Inv(s', a')
  {
    hide ListInv, PcOk, StatusOk, WordInv, Holders;
    assert s'.pc.Keys == s.pc.Keys;
    assert s'.held <= (s'.held - {n}) + {n};
    forall u | u in s'.pc ensures PcOk(s'.pc[u], u, s'.next, a') {
      if u != t { FramePc(s, s', a, a', t, n, u); }
    }
    forall m | m in a'.st ensures StatusOk(s', m, a'.st[m]) {
      if m != n { FrameStatus(s, s', a, a', t, n, m); }
    }
    FrameWords(s, s', a, a', t, n);
  }

  /** A node off the list may change its link and its phase as long as it stays off the list. */
  lemma SameList(s: State, s': State, n: Node, a: Aux, a': Aux)
    requires ListInv(s, a) && n in a.st && n in a'.st && n in s'.next && a.list == a'.list && s'.head == s.head
    requires s'.next == s.next[n := s'.next[n]] && a'.st == a.st[n := a'.st[n]]
    requires (s'.next == s.next && a'.st == a.st) || (a.st[n] != OnList && a'.st[n] != OnList)
    ensures ListInv(s', a')
  {
    forall i | 0 <= i < |a.list| ensures s'.next[a.list[i]] == LinkAt(a.list, i + 1) { assert a.list[i] in a.list; }
  }

  /** What the invariant says about one thread and one node. */
  lemma Know(s: State, a: Aux, t: Tid, n: Node)
    requires Inv(s, a) && t in s.pc && n in s.refs
    ensures s.refs.Keys == s.next.Keys == a.st.Keys && PcOk(s.pc[t], t, s.next, a)
    ensures StatusOk(s, n, a.st[n]) && ListInv(s, a)
    ensures n in a.list <==> a.st[n] == OnList
    ensures s.head == LinkAt(a.list, 0) && LinkOk(s.head, a)
    ensures s.refs[n] == Flag(a.st[n]) + ListRef(a.st[n]) + |Holders(s.pc, n)|
    ensures |Holders(s.pc, n)| <= |s.pc.Keys| <= MAX_THREADS
  {
    HoldersFew(s.pc, n);
    KnowPc(s, a, t);
  }

  lemma KnowPc(s: State, a: Aux, t: Tid)
    requires Inv(s, a) && t in s.pc
    ensures s.refs.Keys == s.next.Keys == a.st.Keys && PcOk(s.pc[t], t, s.next, a)
    ensures LinkOk(s.head, a)
  {
    if s.head.Some? { assert a.list[0] in a.list; }
  }

  /** Steps that only move the program counter and leave every node's phase alone. */
  lemma KeepLocal(s: State, s': State, t: Tid, p: Pc, a: Aux)
    requires Inv(s, a) && t in s.pc && s' == s.(pc := s.pc[t := p])
    requires PcOk(p, t, s.next, a)
    requires forall n :: Holds(p, n) == Holds(s.pc[t], n)
    requires forall n :: Adding(p, n) == Adding(s.pc[t], n) && Arming(p, n) == Arming(s.pc[t], n)
    requires !s.pc[t].Release2?
    ensures Inv(s', a)
  {
    assert s'.pc.Keys == s.pc.Keys;
    forall n ensures Holders(s'.pc, n) == Holders(s.pc, n) { HoldersMove(s.pc, t, p, n); }
    forall n | n in a.st ensures StatusOk(s', n, a.st[n]) {}
  }

  lemma GrowPc(s: State, s': State, a: Aux, a': Aux, n: Node, u: Tid)
    requires s.next.Keys == a.st.Keys && n !in a.st && u in s.pc && PcOk(s.pc[u], u, s.next, a)
    requires s'.next == s.next[n := None] && a'.st == a.st[n := Out]
    ensures PcOk(s.pc[u], u, s'.next, a') && !Holds(s.pc[u], n)
  {}

  lemma GrowStatus(s: State, s': State, n: Node, m: Node, x: Status)
    requires s'.pc == s.pc && s'.held == s.held + {n} && m != n && StatusOk(s, m, x)
    ensures StatusOk(s', m, x)
  {}

  lemma NewStatus(s: State, n: Node)
    requires n in s.held
    ensures StatusOk(s, n, Out)
  {}

  lemma KeepCreate(s: State, s': State, t: Tid, n: Node, a: Aux) returns (a': Aux)
    requires Inv(s, a) && t in s.pc && s.pc[t] == Idle && Create(s, s', t, n)
    ensures Inv(s', a')
  {
    a' := a.(st := a.st[n := Out]);
    hide PcOk, StatusOk;
    forall u | u in s.pc ensures PcOk(s.pc[u], u, s'.next, a') && !Holds(s.pc[u], n) { GrowPc(s, s', a, a', n, u); }
    assert Holders(s.pc, n) == {};
    forall m | m in a.st ensures StatusOk(s', m, a.st[m]) { GrowStatus(s, s', n, m, a.st[m]); }
    assert StatusOk(s', n, Out) by { NewStatus(s', n); }
    assert n !in a.list;
  }

  lemma KeepGive(s: State, s': State, t: Tid, n: Node, a: Aux) returns (a': Aux)
    requires Inv(s, a) && t in s.pc && s.pc[t] == Idle && Give(s, s', t, n)
    ensures Inv(s', a')
  {
    hide Inv, ListInv;
    Know(s, a, t, n);
    a' := a.(st := a.st[n := if s.refs[n] == 0 then Zero(t) else Pending]);
    HoldersMove(s.pc, t, s'.pc[t], n);
    NoWrap(s.refs[n], SHOULD_BE_ON_FREELIST);
    SameList(s, s', n, a, a');
    Frame(s, s', a, a', t, n);
  }

  lemma KeepCasRefs(s: State, s': State, t: Tid, n: Node, r: nat, a: Aux)
    requires Inv(s, a) && t in s.pc && s.pc[t] == CasRefs(n, r) && n in s.refs && s.refs[n] == r
    requires s' == s.(refs := s.refs[n := Add32(r, 1)], pc := s.pc[t := ReadNext(n)])
    ensures Inv(s', a)
  {
    hide Inv, ListInv;
    Know(s, a, t, n);
    HoldersMove(s.pc, t, s'.pc[t], n);
    assert s'.pc.Keys == s.pc.Keys;
    HoldersFew(s'.pc, n);
    NoWrap(s.refs[n], 1);
    SameList(s, s', n, a, a);
    Frame(s, s', a, a, t, n);
  }

  lemma PopList(s: State, s': State, n: Node, nx: Link, a: Aux, a': Aux, x: Status)
    requires ListInv(s, a) && s.head == Some(n) && n in s.next && s.next[n] == nx && x != OnList
    requires s'.head == nx && s'.next == s.next && a' == Aux(a.list[1..], a.st[n := x])
    ensures ListInv(s', a') && a.list != [] && a.list[0] == n
  {
    var l := a.list;
    forall i | 0 <= i < |l| - 1 ensures s'.next[l[1..][i]] == LinkAt(l[1..], i + 1) { assert l[1..][i] == l[i + 1]; }
    forall m ensures m in l[1..] <==> m in a'.st && a'.st[m] == OnList {
      if m in l && m != n { var i :| 0 <= i < |l| && l[i] == m; assert l[1..][i - 1] == m; }
    }
  }

  lemma KeepTake(s: State, s': State, t: Tid, n: Node, nx: Link, a: Aux) returns (a': Aux)
    requires Inv(s, a) && t in s.pc && s.pc[t] == CasHead(n, nx) && s.head == Some(n) && n in s.refs
    requires s' == s.(head := nx, pc := s.pc[t := Release2(n)])
    ensures Inv(s', a')
  {
    hide Inv, ListInv;
    Know(s, a, t, n);
    a' := Aux(a.list[1..], a.st[n := Taken(t)]);
    PopList(s, s', n, nx, a, a', Taken(t));
    assert n in a.list;
    HoldersMove(s.pc, t, s'.pc[t], n);
    Frame(s, s', a, a', t, n);
  }

  lemma KeepRelease2(s: State, s': State, t: Tid, n: Node, a: Aux) returns (a': Aux)
    requires Inv(s, a) && t in s.pc && s.pc[t] == Release2(n) && n in s.refs
    requires s' == s.(refs := s.refs[n := Add32(s.refs[n], -2)], held := s.held + {n}, pc := s.pc[t := Idle])
    ensures Inv(s', a')
  {
    hide Inv, ListInv;
    Know(s, a, t, n);
    a' := a.(st := a.st[n := Out]);
    HoldersMove(s.pc, t, Idle, n);
    NoWrap(s.refs[n], -2);
    SameList(s, s', n, a, a');
    Frame(s, s', a, a', t, n);
  }

  lemma KeepRelease1(s: State, s': State, t: Tid, n: Node, h: Link, a: Aux) returns (a': Aux)
    requires Inv(s, a) && t in s.pc && s.pc[t] == Release1(n, h) && n in s.refs
    requires s' == s.(
      refs := s.refs[n := Add32(s.refs[n], -1)],
      pc := s.pc[t := if s.refs[n] == SHOULD_BE_ON_FREELIST + 1 then LoadHead(n, ToLoop(h)) else Top(h)])
    ensures Inv(s', a')
  {
    hide Inv, ListInv;
    Know(s, a, t, n);
    a' := if s.refs[n] == SHOULD_BE_ON_FREELIST + 1 then a.(st := a.st[n := Zero(t)]) else a;
    HoldersMove(s.pc, t, s'.pc[t], n);
    assert s.refs[n] == SHOULD_BE_ON_FREELIST + 1 <==> a.st[n] == Pending && |Holders(s.pc, n)| == 1;
    NoWrap(s.refs[n], -1);
    SameList(s, s', n, a, a');
    Frame(s, s', a, a', t, n);
  }

  lemma KeepSetNext(s: State, s': State, t: Tid, n: Node, h: Link, k: Cont, a: Aux)
    requires Inv(s, a) && t in s.pc && s.pc[t] == SetNext(n, h, k) && n in s.refs
    requires s' == s.(next := s.next[n := h], pc := s.pc[t := StoreRefs(n, h, k)])
    ensures Inv(s', a)
  {
    hide Inv, ListInv;
    Know(s, a, t, n);
    assert n !in a.list;
    HoldersMove(s.pc, t, s'.pc[t], n);
    SameList(s, s', n, a, a);
    Frame(s, s', a, a, t, n);
  }

  lemma KeepStoreRefs(s: State, s': State, t: Tid, n: Node, h: Link, k: Cont, a: Aux) returns (a': Aux)
    requires Inv(s, a) && t in s.pc && s.pc[t] == StoreRefs(n, h, k) && n in s.refs
    requires s' == s.(refs := s.refs[n := 1], pc := s.pc[t := CasNode(n, h, k)])
    ensures Inv(s', a')
  {
    hide Inv, ListInv;
    Know(s, a, t, n);
    a' := a.(st := a.st[n := Armed(t)]);
    HoldersMove(s.pc, t, s'.pc[t], n);
    SameList(s, s', n, a, a');
    Frame(s, s', a, a', t, n);
  }

  lemma PushList(s: State, s': State, n: Node, a: Aux, a': Aux)
    requires ListInv(s, a) && n !in a.list && n in s.next && s.next[n] == s.head
    requires s'.head == Some(n) && s'.next == s.next && a' == Aux([n] + a.list, a.st[n := OnList])
    ensures ListInv(s', a')
  {
    forall i | 0 <= i < |a'.list| ensures s'.next[a'.list[i]] == LinkAt(a'.list, i + 1) {
      if i > 0 { assert a'.list[i] == a.list[i - 1]; }
    }
  }

  lemma KeepLink(s: State, s': State, t: Tid, n: Node, h: Link, k: Cont, a: Aux) returns (a': Aux)
    requires Inv(s, a) && t in s.pc && s.pc[t] == CasNode(n, h, k) && s.head == h && n in s.refs
    requires s' == s.(head := Some(n), pc := s.pc[t := After(k)])
    ensures Inv(s', a')
  {
    hide Inv, ListInv;
    Know(s, a, t, n);
    a' := Aux([n] + a.list, a.st[n := OnList]);
    assert n !in a.list;
    HoldersMove(s.pc, t, s'.pc[t], n);
    PushList(s, s', n, a, a');
    Frame(s, s', a, a', t, n);
  }

  lemma KeepRetract(s: State, s': State, t: Tid, n: Node, h: Link, k: Cont, a: Aux) returns (a': Aux)
    requires Inv(s, a) && t in s.pc && s.pc[t] == Retract(n, h, k) && n in s.refs
    requires s' == s.(
      refs := s.refs[n := Add32(s.refs[n], SHOULD_BE_ON_FREELIST - 1)],
      pc := s.pc[t := if s.refs[n] == 1 then SetNext(n, h, k) else After(k)])
    ensures Inv(s', a')
  {
    hide Inv, ListInv;
    Know(s, a, t, n);
    a' := a.(st := a.st[n := if s.refs[n] == 1 then Zero(t) else Pending]);
    HoldersMove(s.pc, t, s'.pc[t], n);
    NoWrap(s.refs[n], SHOULD_BE_ON_FREELIST - 1);
    SameList(s, s', n, a, a');
    Frame(s, s', a, a', t, n);
  }

  /** Any step of any thread, from any state that meets the invariant. */
  lemma Keep(s: State, s': State, t: Tid, a: Aux) returns (a': Aux)
    requires Inv(s, a) && t in s.pc && Step(s, s', t)
    ensures Inv(s', a')
  {
    hide Inv;
    a' := a;
    KnowPc(s, a, t);
    match s.pc[t]
    case Idle =>
      if n :| Create(s, s', t, n) { a' := KeepCreate(s, s', t, n, a); }
      else if n :| Give(s, s', t, n) { a' := KeepGive(s, s', t, n, a); }
      else { KeepLocal(s, s', t, Start, a); }
    case CasRefs(n, r) =>
      if s.refs[n] == r { KeepCasRefs(s, s', t, n, r, a); } else { KeepLocal(s, s', t, Start, a); }
    case CasHead(n, nx) =>
      if s.head == Some(n) { a' := KeepTake(s, s', t, n, nx, a); }
      else { KeepLocal(s, s', t, Release1(n, s.head), a); }
    case Release2(n) => a' := KeepRelease2(s, s', t, n, a);
    case Release1(n, h) => a' := KeepRelease1(s, s', t, n, h, a);
    case SetNext(n, h, k) => KeepSetNext(s, s', t, n, h, k, a);
    case StoreRefs(n, h, k) => a' := KeepStoreRefs(s, s', t, n, h, k, a);
    case CasNode(n, h, k) =>
      if s.head == h { a' := KeepLink(s, s', t, n, h, k, a); }
      else { KeepLocal(s, s', t, Retract(n, s.head, k), a); }
    case Retract(n, h, k) => a' := KeepRetract(s, s', t, n, h, k, a);
    case Start => KeepLocal(s, s', t, Top(s.head), a);
    case Top(h) => KeepLocal(s, s', t, s'.pc[t], a);
    case ReadNext(n) => KeepLocal(s, s', t, CasHead(n, s.next[n]), a);
    case LoadHead(n, k) => KeepLocal(s, s', t, SetNext(n, s.head, k), a);
  }

  // ---------- What every run guarantees ----------

  /** On the list that starts at freeListHead. */
  ghost predicate Listed(s: State, n: Node) {
    exists l :: IsList(s.head, s.next, l) && n in l
  }

  /** The one thread that is answerable for a node on its way in or out. */
  predicate Agent(p: Pc, n: Node) { Adding(p, n) || Arming(p, n) || p == Release2(n) }

  /** On its way onto the list or into a caller's hands. */
  ghost predicate Moving(s: State, n: Node) {
    n in s.refs && (s.refs[n] >= SHOULD_BE_ON_FREELIST || exists t :: t in s.pc && Agent(s.pc[t], n))
  }

  /** Every node is in exactly one place: held by one caller, listed, or on the move. */
  ghost predicate OnePlace(s: State) {
    && (forall n | n in s.refs :: n in s.held || Listed(s, n) || Moving(s, n))
    && (forall n {:trigger Listed(s, n)} | Listed(s, n) :: n !in s.held && !Moving(s, n))
    && (forall n | n in s.held :: !Moving(s, n))
  }

  /** At most one thread is adding or taking a given node. */
  ghost predicate OneAgent(s: State) {
    forall n, t, u | t in s.pc && u in s.pc && Agent(s.pc[t], n) && Agent(s.pc[u], n) :: t == u
  }

  /** The assertion in try_get: a node just taken has its flag clear. */
  ghost predicate FlagClear(s: State) {
    forall t, n | t in s.pc && s.pc[t] == Release2(n) :: n in s.refs && s.refs[n] < SHOULD_BE_ON_FREELIST
  }

  /** Threads only ever touch nodes that exist. */
  ghost predicate KnownOnly(s: State) {
    forall t | t in s.pc && About(s.pc[t]).Some? :: About(s.pc[t]).value in s.refs
  }

  ghost predicate Safe(s: State) {
    // freeListHead starts a finite list on which no node occurs twice
    && (exists l :: IsList(s.head, s.next, l))
    && OnePlace(s) && OneAgent(s) && FlagClear(s) && KnownOnly(s)
  }

  lemma {:induction false} SameListAt(head: Link, next: map<Node, Link>, l: seq<Node>, m: seq<Node>, i: nat)
    requires IsList(head, next, l) && IsList(head, next, m)
    ensures LinkAt(l, i) == LinkAt(m, i)
  {
    if i > 0 {
      SameListAt(head, next, l, m, i - 1);
      if i - 1 < |l| { assert next[l[i - 1]] == LinkAt(l, i) && next[m[i - 1]] == LinkAt(m, i); }
    }
  }

  /** The head and the links determine the list. */
  lemma ListUnique(head: Link, next: map<Node, Link>, l: seq<Node>, m: seq<Node>)
    requires IsList(head, next, l) && IsList(head, next, m)
    ensures l == m
  {
    SameListAt(head, next, l, m, |l|);
    SameListAt(head, next, l, m, |m|);
    forall i | 0 <= i < |l| ensures l[i] == m[i] { SameListAt(head, next, l, m, i); }
  }

  lemma ListedIff(s: State, a: Aux, n: Node)
    requires Inv(s, a)
    ensures Listed(s, n) <==> n in a.st && a.st[n] == OnList
  {
    if Listed(s, n) {
      var l :| IsList(s.head, s.next, l) && n in l;
      ListUnique(s.head, s.next, l, a.list);
    }
  }

  lemma MovingIff(s: State, a: Aux, n: Node)
    requires Inv(s, a)
    ensures Moving(s, n) <==> n in a.st && a.st[n] != OnList && a.st[n] != Out
  {
    assert s.refs.Keys == a.st.Keys;
    if n in s.refs {
      HoldersFew(s.pc, n);
      assert StatusOk(s, n, a.st[n]) && s.refs[n] == Flag(a.st[n]) + ListRef(a.st[n]) + |Holders(s.pc, n)|;
      assert |s.pc.Keys| <= MAX_THREADS;
      hide Inv;
      if t :| t in s.pc && Agent(s.pc[t], n) { KnowPc(s, a, t); }
    }
  }

  lemma AgentUnique(s: State, a: Aux, n: Node, t: Tid, u: Tid)
    requires Inv(s, a) && t in s.pc && u in s.pc && Agent(s.pc[t], n) && Agent(s.pc[u], n)
    ensures t == u
  {
    hide Inv;
    KnowPc(s, a, t);
    KnowPc(s, a, u);
  }

  lemma OwnedIff(s: State, a: Aux, n: Node)
    requires Inv(s, a)
    ensures n in s.held <==> n in a.st && a.st[n] == Out
  {
    if n in a.st { assert StatusOk(s, n, a.st[n]); }
  }

  lemma InvOnePlace(s: State, a: Aux)
    requires Inv(s, a)
    ensures OnePlace(s)
  {
    assert s.refs.Keys == a.st.Keys;
    hide Inv, Listed, Moving;
    forall n
      ensures n in s.held <==> n in a.st && a.st[n] == Out
      ensures Listed(s, n) <==> n in a.st && a.st[n] == OnList
      ensures Moving(s, n) <==> n in a.st && a.st[n] != OnList && a.st[n] != Out
    {
      OwnedIff(s, a, n);
      ListedIff(s, a, n);
      MovingIff(s, a, n);
    }
  }

  lemma InvOneAgent(s: State, a: Aux)
    requires Inv(s, a)
    ensures OneAgent(s)
  {
    hide Inv, Agent;
    forall n, t, u | t in s.pc && u in s.pc && Agent(s.pc[t], n) && Agent(s.pc[u], n) ensures t == u {
      AgentUnique(s, a, n, t, u);
    }
  }

  lemma InvFlagClear(s: State, a: Aux)
    requires Inv(s, a)
    ensures FlagClear(s) && KnownOnly(s)
  {
    hide Inv, ListInv;
    forall t, n | t in s.pc && s.pc[t] == Release2(n) ensures n in s.refs && s.refs[n] < SHOULD_BE_ON_FREELIST {
      KnowPc(s, a, t);
      Know(s, a, t, n);
    }
    forall t | t in s.pc && About(s.pc[t]).Some? ensures About(s.pc[t]).value in s.refs { KnowPc(s, a, t); }
  }

  lemma InvImpliesSafe(s: State, a: Aux)
    requires Inv(s, a)
    ensures Safe(s)
  {
    assert IsList(s.head, s.next, a.list);
    hide Inv, IsList, OnePlace, OneAgent, FlagClear, KnownOnly;
    InvOnePlace(s, a);
    InvOneAgent(s, a);
    InvFlagClear(s, a);
  }

  lemma InitInv(s: State, threads: set<Tid>)
    requires Init(s, threads) && |threads| <= MAX_THREADS
    ensures Inv(s, Aux([], map[]))
  {}

  lemma {:induction false} RunInv(r: seq<State>, threads: set<Tid>, i: nat) returns (a: Aux)
    requires Run(r, threads) && |threads| <= MAX_THREADS && i < |r|
    ensures Inv(r[i], a)
  {
    hide Inv, Step;
    if i == 0 {
      InitInv(r[0], threads);
      a := Aux([], map[]);
    } else {
      var b := RunInv(r, threads, i - 1);
      assert Next(r[i - 1], r[i - 1 + 1]);
      var t :| t in r[i - 1].pc && Step(r[i - 1], r[i], t);
      a := Keep(r[i - 1], r[i], t, b);
    }
  }

  /** Every state of every run of at most 2^31 - 2 threads is safe. */
  lemma FreeListSafe(r: seq<State>, threads: set<Tid>)
    requires Run(r, threads) && |threads| <= MAX_THREADS
    ensures forall i | 0 <= i < |r| :: Safe(r[i])
  {
    forall i | 0 <= i < |r| ensures Safe(r[i]) {
      var a := RunInv(r, threads, i);
      InvImpliesSafe(r[i], a);
    }
  }

  lemma StepFreezes(s: State, s': State, t: Tid, a: Aux, n: Node)
    requires Inv(s, a) && t in s.pc && Step(s, s', t) && Holders(s.pc, n) != {}
    ensures n in s.next && n in s'.next && s'.next[n] == s.next[n]
  {
    hide Inv;
    var u :| u in Holders(s.pc, n);
    KnowPc(s, a, u);
    KnowPc(s, a, t);
    Know(s, a, t, n);
  }

  /** While anyone holds a counted reference to a node, its freeListNext does not change. */
  lemma NextFrozen(r: seq<State>, threads: set<Tid>, i: nat, n: Node)
    requires Run(r, threads) && |threads| <= MAX_THREADS && i + 1 < |r|
    requires Holders(r[i].pc, n) != {}
    ensures n in r[i].next && n in r[i + 1].next && r[i + 1].next[n] == r[i].next[n]
  {
    hide Inv, Step;
    var a := RunInv(r, threads, i);
    assert Next(r[i], r[i + 1]);
    var t :| t in r[i].pc && Step(r[i], r[i + 1], t);
    StepFreezes(r[i], r[i + 1], t, a, n);
  }

  /** The head CAS of try_get installs the successor of the node it takes. */
  lemma TakeInstallsSuccessor(r: seq<State>, threads: set<Tid>, i: nat, t: Tid, n: Node, nx: Link)
    requires Run(r, threads) && |threads| <= MAX_THREADS && i < |r|
    requires t in r[i].pc && r[i].pc[t] == CasHead(n, nx) && r[i].head == Some(n)
    ensures exists l :: IsList(Some(n), r[i].next, [n] + l) && IsList(nx, r[i].next, l)
  {
    hide Inv, Run;
    var a := RunInv(r, threads, i);
    KnowPc(r[i], a, t);
    Know(r[i], a, t, n);
    var s' := r[i].(head := nx);
    PopList(r[i], s', n, nx, a, Aux(a.list[1..], a.st[n := Out]), Out);
    assert a.list == [n] + a.list[1..];
  }

  /** Nothing is lost: when every thread is outside, a node nobody holds is on the list. */
  lemma QuietMeansListed(r: seq<State>, threads: set<Tid>, i: nat, n: Node)
    requires Run(r, threads) && |threads| <= MAX_THREADS && i < |r|
    requires forall t | t in r[i].pc :: r[i].pc[t] == Idle
    requires n in r[i].refs && n !in r[i].held
    ensures Listed(r[i], n)
  {
    hide Run;
    var a := RunInv(r, threads, i);
    assert StatusOk(r[i], n, a.st[n]);
    assert Holders(r[i].pc, n) == {};
    ListedIff(r[i], a, n);
  }

  // ---------- Seen from outside, a set ----------

  /** In the set that the free list stands for: not with a caller, and not on its way to one. */
  ghost predicate Free(s: State, n: Node) {
    n in s.refs && n !in s.held && forall t | t in s.pc :: s.pc[t] != Release2(n)
  }

  /** What a step of thread t does to that set. */
  datatype Effect = Unchanged | Added(n: Node) | Removed(n: Node)

  ghost predicate Does(s: State, s': State, t: Tid, e: Effect) {
    match e
    case Unchanged => forall m :: Free(s', m) == Free(s, m)
    case Added(n) =>
      && n in s.held && n !in s'.held && Free(s', n)
      && forall m | m != n :: Free(s', m) == Free(s, m)
    case Removed(n) =>
      && Free(s, n) && t in s'.pc && s'.pc[t] == Release2(n) && !Free(s', n)
      && forall m | m != n :: Free(s', m) == Free(s, m)
  }

  lemma EffectOf(s: State, s': State, t: Tid, a: Aux) returns (e: Effect)
    requires Inv(s, a) && t in s.pc && Step(s, s', t)
    ensures Does(s, s', t, e)
    ensures e.Added? ==> s.pc[t] == Idle
    ensures e.Removed? ==> s.pc[t].CasHead? && s.head == Some(e.n)
  {
    KnowKeys(s, a, t);
    hide Inv, Free;
    if s.pc[t] == Idle {
      e := EffectIdle(s, s', t, a);
    } else if s.pc[t].CasHead? && s.head == Some(s.pc[t].n) {
      hide Does;
      e := EffectTake(s, s', t, a);
    } else if s.pc[t].Release2? {
      e := Unchanged;
      FreeChange(s, s', t, s.pc[t].n);
    } else {
      e := Unchanged;
      hide Does;
      EffectNone(s, s', t);
    }
  }

  lemma EffectIdle(s: State, s': State, t: Tid, a: Aux) returns (e: Effect)
    requires Inv(s, a) && t in s.pc && s.pc[t] == Idle && Step(s, s', t)
    ensures Does(s, s', t, e) && !e.Removed?
  {
    KnowKeys(s, a, t);
    hide Inv, Free;
    e := Unchanged;
    if n :| Give(s, s', t, n) {
      e := Added(n);
      NotTaken(s, a, n);
      FreeChange(s, s', t, n);
    } else if n :| Create(s, s', t, n) {
      FreeChange(s, s', t, n);
    } else {
      FreeSame(s, s', t);
    }
  }

  lemma EffectTake(s: State, s': State, t: Tid, a: Aux) returns (e: Effect)
    requires Inv(s, a) && t in s.pc && s.pc[t].CasHead? && s.head == Some(s.pc[t].n) && Step(s, s', t)
    ensures Does(s, s', t, e) && e == Removed(s.pc[t].n)
  {
    KnowKeys(s, a, t);
    hide Inv, Free;
    e := Removed(s.pc[t].n);
    Know(s, a, t, e.n);
    NotTaken(s, a, e.n);
    FreeChange(s, s', t, e.n);
  }

  lemma EffectNone(s: State, s': State, t: Tid)
    requires t in s.pc && Step(s, s', t) && s.pc[t] != Idle && !s.pc[t].Release2?
    requires s.pc[t].CasHead? ==> s.head != Some(s.pc[t].n)
    ensures Does(s, s', t, Unchanged)
  {
    hide Free;
    assert s'.refs.Keys == s.refs.Keys && s'.held == s.held && t in s'.pc && !s'.pc[t].Release2?;
    FreeSame(s, s', t);
  }

  lemma KnowKeys(s: State, a: Aux, t: Tid)
    requires Inv(s, a) && t in s.pc
    ensures PcOk(s.pc[t], t, s.next, a) && s.refs.Keys == s.next.Keys == a.st.Keys && s.held <= a.st.Keys
  {
  }

  /** Only thread t and node n change. */
  lemma FreeChange(s: State, s': State, t: Tid, n: Node)
    requires t in s.pc && t in s'.pc && s'.pc == s.pc[t := s'.pc[t]]
    requires s'.refs.Keys == s.refs.Keys + {n} && s'.held - {n} == s.held - {n}
    requires forall m | s.pc[t] == Release2(m) || s'.pc[t] == Release2(m) :: m == n
    ensures forall m | m != n :: Free(s', m) == Free(s, m)
    ensures Free(s, n) <==> n in s.refs && n !in s.held && forall u | u in s.pc :: s.pc[u] != Release2(n)
    ensures Free(s', n) <==>
      n !in s'.held && s'.pc[t] != Release2(n) && forall u | u in s.pc && u != t :: s.pc[u] != Release2(n)
  {
    forall m | m != n
      ensures Free(s', m) == Free(s, m)
    {
      assert m in s.refs.Keys <==> m in s'.refs.Keys;
      assert m in s.held - {n} <==> m in s'.held - {n};
      assert forall u | u in s.pc :: s.pc[u] == Release2(m) <==> s'.pc[u] == Release2(m);
    }
    assert n in s'.refs.Keys;
    assert forall u | u in s.pc && u != t :: u in s'.pc && s'.pc[u] == s.pc[u];
  }

  lemma FreeSame(s: State, s': State, t: Tid)
    requires t in s.pc && t in s'.pc && s'.pc == s.pc[t := s'.pc[t]]
    requires s'.refs.Keys == s.refs.Keys && s'.held == s.held && !s.pc[t].Release2? && !s'.pc[t].Release2?
    ensures forall m :: Free(s', m) == Free(s, m)
  {
    forall m
      ensures Free(s', m) == Free(s, m)
    {
      assert m in s.refs.Keys <==> m in s'.refs.Keys;
      assert forall u | u in s.pc :: s.pc[u] == Release2(m) <==> s'.pc[u] == Release2(m);
    }
  }

  /** A node that is held or listed is in nobody's hands. */
  lemma NotTaken(s: State, a: Aux, n: Node)
    requires Inv(s, a) && n in a.st && (a.st[n] == Out || a.st[n] == OnList || n in s.held)
    ensures n in s.refs && (n in s.held <==> a.st[n] == Out) && forall u | u in s.pc :: s.pc[u] != Release2(n)
  {
    assert StatusOk(s, n, a.st[n]);
    forall u | u in s.pc
      ensures s.pc[u] != Release2(n)
    {
      assert PcOk(s.pc[u], u, s.next, a);
    }
  }

  /**
   Every step either leaves the set alone, or is the first step of an `add` and puts a held node
   in, or is the head CAS of a `try_get` and takes out the node that this thread will return.
   */
  lemma RefinesSet(r: seq<State>, threads: set<Tid>, i: nat) returns (t: Tid, e: Effect)
    requires Run(r, threads) && |threads| <= MAX_THREADS && i + 1 < |r|
    ensures t in r[i].pc && Step(r[i], r[i + 1], t) && Does(r[i], r[i + 1], t, e)
    ensures e.Added? ==> r[i].pc[t] == Idle
    ensures e.Removed? ==> r[i].pc[t].CasHead? && r[i].head == Some(e.n)
  {
    hide Inv, Step, Does;
    var a := RunInv(r, threads, i);
    assert Next(r[i], r[i + 1]);
    t :| t in r[i].pc && Step(r[i], r[i + 1], t);
    e := EffectOf(r[i], r[i + 1], t, a);
  }

  /** Inside try_get, including the re-adding of a node that it does on the way. */
  predicate Getting(p: Pc) {
    match p
    case Idle => false
    case LoadHead(_, k) => k != ToCaller
    case SetNext(_, _, k) => k != ToCaller
    case StoreRefs(_, _, k) => k != ToCaller
    case CasNode(_, _, k) => k != ToCaller
    case Retract(_, _, k) => k != ToCaller
    case _ => true
  }

  /** A thread inside try_get has the head h in hand: to look at next in its loop, or to return. */
  predicate InHand(p: Pc, h: Link) {
    match p
    case Top(g) => g == h
    case Release1(_, g) => g == h
    case Release2(n) => h == Some(n)
    case LoadHead(_, k) => k == ToLoop(h)
    case SetNext(_, _, k) => k == ToLoop(h)
    case StoreRefs(_, _, k) => k == ToLoop(h)
    case CasNode(_, _, k) => k == ToLoop(h)
    case Retract(_, _, k) => k == ToLoop(h)
    case _ => false
  }

  lemma HandStep(s: State, s': State, u: Tid, t: Tid, h: Link)
    requires u in s.pc && Step(s, s', u) && t in s'.pc && InHand(s'.pc[t], h)
    ensures t in s.pc && Getting(s.pc[t]) && (InHand(s.pc[t], h) || s.head == h)
  {
  }

  /** From j up to i thread t is inside one try_get, and at j the head was h. */
  ghost predicate SawHead(r: seq<State>, t: Tid, h: Link, j: nat, i: nat) {
    j < i < |r| && r[j].head == h && forall k | j <= k <= i :: t in r[k].pc && Getting(r[k].pc[t])
  }

  lemma StepAt(r: seq<State>, threads: set<Tid>, i: nat) returns (u: Tid)
    requires Run(r, threads) && i + 1 < |r|
    ensures u in r[i].pc && Step(r[i], r[i + 1], u)
  {
    hide Step;
    assert Next(r[i], r[i + 1]);
    u :| u in r[i].pc && Step(r[i], r[i + 1], u);
  }

  lemma NotAtFirst(r: seq<State>, threads: set<Tid>, t: Tid, h: Link)
    requires Run(r, threads)
    ensures |r| > 0 && (t in r[0].pc ==> !InHand(r[0].pc[t], h))
  {
  }

  lemma HandGetting(p: Pc, h: Link)
    requires InHand(p, h)
    ensures Getting(p)
  {
  }

  lemma {:induction false} HandSeen(r: seq<State>, threads: set<Tid>, i: nat, t: Tid, h: Link) returns (j: nat)
    requires Run(r, threads) && i < |r| && t in r[i].pc && InHand(r[i].pc[t], h)
    ensures SawHead(r, t, h, j, i)
  {
    hide Step, Run, InHand;
    NotAtFirst(r, threads, t, h);
    var u := StepAt(r, threads, i - 1);
    HandStep(r[i - 1], r[i], u, t, h);
    HandGetting(r[i].pc[t], h);
    j := i - 1;
    if InHand(r[j].pc[t], h) { j := HandSeen(r, threads, j, t, h); }
  }

  function Handed(h: Link): set<Node> { if h == None then {} else {h.value} }

  /** Only from the loop test, or with the node it has unlinked, does a thread leave try_get. */
  lemma GetExit(s: State, s': State, a: Aux, u: Tid, t: Tid) returns (h: Link)
    requires Inv(s, a) && u in s.pc && Step(s, s', u) && t in s.pc && Getting(s.pc[t]) && t in s'.pc && s'.pc[t] == Idle
    ensures InHand(s.pc[t], h) && s.held !! Handed(h) && s'.held == s.held + Handed(h)
  {
    hide Inv;
    if s.pc[t].Release2? {
      h := Some(s.pc[t].n);
      KnowPc(s, a, t);
      Know(s, a, t, s.pc[t].n);
    } else {
      h := None;
    }
  }

  /**
   Whenever a call of try_get ends, it gives its caller what the head was at some moment of the
   call: nothing if the head was null, and otherwise the head node, which nobody held.
   */
  lemma GetAnswers(r: seq<State>, threads: set<Tid>, i: nat, t: Tid) returns (h: Link, j: nat)
    requires Run(r, threads) && |threads| <= MAX_THREADS && i + 1 < |r|
    requires t in r[i].pc && Getting(r[i].pc[t]) && t in r[i + 1].pc && r[i + 1].pc[t] == Idle
    ensures SawHead(r, t, h, j, i)
    ensures r[i].held !! Handed(h) && r[i + 1].held == r[i].held + Handed(h)
  {
    hide Inv, Step, Run;
    var a := RunInv(r, threads, i);
    var u := StepAt(r, threads, i);
    h := GetExit(r[i], r[i + 1], a, u, t);
    j := HandSeen(r, threads, i, t, h);
  }

  /**
   A call of try_get that ends empty-handed saw, during the call, an empty list; whatever was in
   the set at that moment was still on its way onto the list.
   */
  lemma NullSawEmpty(r: seq<State>, threads: set<Tid>, i: nat, t: Tid) returns (j: nat)
    requires Run(r, threads) && |threads| <= MAX_THREADS && i + 1 < |r|
    requires t in r[i].pc && Getting(r[i].pc[t]) && t in r[i + 1].pc && r[i + 1].pc[t] == Idle
    requires r[i + 1].held == r[i].held
    ensures SawHead(r, t, None, j, i)
    ensures forall n | Free(r[j], n) :: Moving(r[j], n) && !Listed(r[j], n)
  {
    hide Run;
    var h;
    h, j := GetAnswers(r, threads, i, t);
    FreeListSafe(r, threads);
    assert Safe(r[j]);
    forall n ensures !Listed(r[j], n) { NoneListed(r[j], n); }
  }

  lemma NoneListed(s: State, n: Node)
    requires s.head == None
    ensures !Listed(s, n)
  {
  }

  // ---------- Every call ends when its thread runs alone ----------

  /** Thread t, inside one call, gets from s to s' in n steps of its own. */
  ghost predicate Solo(s: State, s': State, t: Tid, n: nat)
    decreases n
  {
    if n == 0 then s' == s
    else t in s.pc && s.pc[t] != Idle && exists m :: Step(s, m, t) && Solo(m, s', t, n - 1)
  }

  lemma First(s: State, m: State, s': State, t: Tid, n: nat)
    requires t in s.pc && s.pc[t] != Idle && Step(s, m, t) && Solo(m, s', t, n)
    ensures Solo(s, s', t, n + 1)
  {
    hide Step;
  }

  /** Nodes with the flag set that somebody still references. */
  function Flagged(s: State): set<Node> { set n | n in s.refs && s.refs[n] > SHOULD_BE_ON_FREELIST }

  /**
   How far thread t is from the end of its call, not counting the flagged nodes it may still have
   to add on the way: those weigh 20 steps each.
   */
  function Left(s: State, t: Tid): nat
    requires t in s.pc
  {
    match s.pc[t]
    case Idle => 0
    case Start => 6
    case Top(h) => if h == None then 1 else if h == s.head then 5 else 10
    case CasRefs(n, r) => if s.head == Some(n) && n in s.refs && s.refs[n] == r then 4 else 9
    case ReadNext(n) => if s.head == Some(n) then 3 else 8
    case CasHead(n, _) => if s.head == Some(n) then 2 else 7
    case Release2(_) => 1
    case Release1(_, h) => if h == s.head then 6 else 11
    case LoadHead(_, _) => 14
    case SetNext(_, h, _) => if h == s.head then 13 else 34
    case StoreRefs(_, h, _) => if h == s.head then 12 else 33
    case CasNode(_, h, _) => if h == s.head then 11 else 32
    case Retract(_, h, _) => if h == s.head then 31 else 35
  }

  function Distance(s: State, t: Tid): nat
    requires t in s.pc
  {
    20 * |Flagged(s)| + Left(s, t)
  }

  /** One word changes. */
  lemma FlaggedMove(s: State, s': State, n: Node)
    requires n in s.refs && n in s'.refs && s'.refs == s.refs[n := s'.refs[n]]
    ensures s'.refs[n] <= SHOULD_BE_ON_FREELIST ==> |Flagged(s')| <= |Flagged(s)|
    ensures s.refs[n] > SHOULD_BE_ON_FREELIST >= s'.refs[n] ==> |Flagged(s')| == |Flagged(s)| - 1
    ensures s.refs[n] > SHOULD_BE_ON_FREELIST && s'.refs[n] > SHOULD_BE_ON_FREELIST ==> |Flagged(s')| == |Flagged(s)|
    ensures |Flagged(s')| <= |Flagged(s)| + 1
  {
    var f, g := Flagged(s), Flagged(s');
    assert f - {n} == g - {n};
    assert f == f - {n} || f == f - {n} + {n};
    assert g == g - {n} || g == g - {n} + {n};
    assert n in f <==> s.refs[n] > SHOULD_BE_ON_FREELIST;
    assert n in g <==> s'.refs[n] > SHOULD_BE_ON_FREELIST;
  }

  /** The head, if there is one, is on the list: its word counts at least the list's reference. */
  lemma HeadCounted(s: State, a: Aux, t: Tid)
    requires Inv(s, a) && t in s.pc && s.head.Some?
    ensures s.head.value in s.refs && 0 < s.refs[s.head.value] < SHOULD_BE_ON_FREELIST
  {
    hide Inv;
    KnowPc(s, a, t);
    Know(s, a, t, s.head.value);
    assert a.list[0] in a.list;
  }

  lemma AdvanceGet(s: State, t: Tid, a: Aux) returns (s': State)
    requires Inv(s, a) && t in s.pc && (s.pc[t].Start? || s.pc[t].Top? || s.pc[t].ReadNext? || s.pc[t].CasHead?)
    ensures t in s'.pc && Step(s, s', t) && Distance(s', t) < Distance(s, t)
  {
    hide Inv;
    KnowPc(s, a, t);
    if s.head.Some? { HeadCounted(s, a, t); }
    match s.pc[t] {
      case Start => s' := s.(pc := s.pc[t := Top(s.head)]);
      case Top(h) =>
        if h == None {
          s' := s.(pc := s.pc[t := Idle]);
        } else {
          var r := s.refs[h.value];
          s' := s.(pc := s.pc[t := if r % SHOULD_BE_ON_FREELIST == 0 then Start else CasRefs(h.value, r)]);
        }
      case ReadNext(n) => s' := s.(pc := s.pc[t := CasHead(n, s.next[n])]);
      case CasHead(n, nx) =>
        if s.head == Some(n) {
          s' := s.(head := nx, pc := s.pc[t := Release2(n)]);
        } else {
          s' := s.(pc := s.pc[t := Release1(n, s.head)]);
        }
    }
    assert Flagged(s') == Flagged(s);
  }

  lemma AdvanceWord(s: State, t: Tid, a: Aux) returns (s': State)
    requires Inv(s, a) && t in s.pc && (s.pc[t].CasRefs? || s.pc[t].Release2? || s.pc[t].Release1?)
    ensures t in s'.pc && Step(s, s', t) && Distance(s', t) < Distance(s, t)
  {
    hide Inv, Flagged;
    KnowPc(s, a, t);
    var n := s.pc[t].n;
    Know(s, a, t, n);
    assert Holds(s.pc[t], n) ==> t in Holders(s.pc, n) && Holders(s.pc, n) != {};
    match s.pc[t] {
      case CasRefs(_, r) =>
        if s.refs[n] == r {
          NoWrap(r, 1);
          s' := s.(refs := s.refs[n := Add32(r, 1)], pc := s.pc[t := ReadNext(n)]);
        } else {
          s' := s.(pc := s.pc[t := Start]);
          assert s'.refs == s.refs[n := s.refs[n]];
        }
      case Release2(_) =>
        NoWrap(s.refs[n], -2);
        s' := s.(refs := s.refs[n := Add32(s.refs[n], -2)], held := s.held + {n}, pc := s.pc[t := Idle]);
      case Release1(_, h) =>
        NoWrap(s.refs[n], -1);
        s' := s.(
          refs := s.refs[n := Add32(s.refs[n], -1)],
          pc := s.pc[t := if s.refs[n] == SHOULD_BE_ON_FREELIST + 1 then LoadHead(n, ToLoop(h)) else Top(h)]);
    }
    FlaggedMove(s, s', n);
  }

  lemma AdvanceAdd(s: State, t: Tid, n: Node, a: Aux) returns (s': State)
    requires Inv(s, a) && t in s.pc && (Adding(s.pc[t], n) || Arming(s.pc[t], n))
    ensures t in s'.pc && Step(s, s', t) && Distance(s', t) < Distance(s, t)
  {
    hide Inv, Flagged;
    KnowPc(s, a, t);
    Know(s, a, t, n);
    match s.pc[t] {
      case LoadHead(_, k) => s' := s.(pc := s.pc[t := SetNext(n, s.head, k)]);
      case SetNext(_, h, k) => s' := s.(next := s.next[n := h], pc := s.pc[t := StoreRefs(n, h, k)]);
      case StoreRefs(_, h, k) => s' := s.(refs := s.refs[n := 1], pc := s.pc[t := CasNode(n, h, k)]);
      case CasNode(_, h, k) =>
        if s.head == h {
          s' := s.(head := Some(n), pc := s.pc[t := After(k)]);
        } else {
          s' := s.(pc := s.pc[t := Retract(n, s.head, k)]);
        }
      case Retract(_, h, k) =>
        NoWrap(s.refs[n], SHOULD_BE_ON_FREELIST - 1);
        s' := s.(
          refs := s.refs[n := Add32(s.refs[n], SHOULD_BE_ON_FREELIST - 1)],
          pc := s.pc[t := if s.refs[n] == 1 then SetNext(n, h, k) else After(k)]);
    }
    assert s'.refs == s.refs[n := s'.refs[n]];
    FlaggedMove(s, s', n);
  }

  /** No thread inside a call is ever stuck, and without interference each step brings it nearer to the end. */
  lemma Advance(s: State, t: Tid, a: Aux) returns (s': State)
    requires Inv(s, a) && t in s.pc && s.pc[t] != Idle
    ensures t in s'.pc && Step(s, s', t) && Distance(s', t) < Distance(s, t)
  {
    hide Inv, Step, Distance;
    match s.pc[t]
    case Start => s' := AdvanceGet(s, t, a);
    case Top(_) => s' := AdvanceGet(s, t, a);
    case ReadNext(_) => s' := AdvanceGet(s, t, a);
    case CasHead(_, _) => s' := AdvanceGet(s, t, a);
    case CasRefs(_, _) => s' := AdvanceWord(s, t, a);
    case Release2(_) => s' := AdvanceWord(s, t, a);
    case Release1(_, _) => s' := AdvanceWord(s, t, a);
    case LoadHead(n, _) => s' := AdvanceAdd(s, t, n, a);
    case SetNext(n, _, _) => s' := AdvanceAdd(s, t, n, a);
    case StoreRefs(n, _, _) => s' := AdvanceAdd(s, t, n, a);
    case CasNode(n, _, _) => s' := AdvanceAdd(s, t, n, a);
    case Retract(n, _, _) => s' := AdvanceAdd(s, t, n, a);
  }

  lemma {:induction false} RunAlone(s: State, t: Tid, a: Aux) returns (s': State, n: nat)
    requires Inv(s, a) && t in s.pc
    ensures Solo(s, s', t, n) && t in s'.pc && s'.pc[t] == Idle && n <= Distance(s, t)
    decreases Distance(s, t)
  {
    hide Inv, Step, Distance, Solo;
    if s.pc[t] == Idle {
      s', n := s, 0;
      SoloNone(s, t);
    } else {
      var m := Advance(s, t, a);
      var a' := Keep(s, m, t, a);
      s', n := RunAlone(m, t, a');
      First(s, m, s', t, n);
      n := n + 1;
    }
  }

  lemma SoloNone(s: State, t: Tid)
    ensures Solo(s, s, t, 0)
  {
  }

  /**
   From every state of every run, a thread that goes on alone leaves its call: it is never caught
   in a loop, whatever the other threads have left half done.
   */
  lemma EndsAlone(r: seq<State>, threads: set<Tid>, i: nat, t: Tid) returns (s': State, n: nat)
    requires Run(r, threads) && |threads| <= MAX_THREADS && i < |r| && t in r[i].pc
    ensures Solo(r[i], s', t, n) && t in s'.pc && s'.pc[t] == Idle && n <= Distance(r[i], t)
  {
    hide Run, Inv, Distance, Solo;
    var a := RunInv(r, threads, i);
    s', n := RunAlone(r[i], t, a);
  }

  /** What a thread leaves behind that takes the head off the list, or finds the list empty. */
  ghost predicate Popped(s: State, s': State) {
    match s.head
    case None => s' == s
    case Some(n) =>
      && n in s.refs && n in s.next && s.refs[n] > 0
      && s' == s.(head := s.next[n], refs := s.refs[n := s.refs[n] - 1], held := s.held + {n})
  }

  /** A try_get that nobody disturbs returns the head and leaves its successor, or finds the list empty. */
  lemma GetsAlone(r: seq<State>, threads: set<Tid>, i: nat, t: Tid) returns (s0: State, s': State, n: nat)
    requires Run(r, threads) && |threads| <= MAX_THREADS && i < |r| && t in r[i].pc && r[i].pc[t] == Idle
    ensures s0 == r[i].(pc := r[i].pc[t := Start]) && Step(r[i], s0, t)
    ensures Solo(s0, s', t, n) && Popped(r[i], s')
  {
    hide Run, Inv, Solo, Popped;
    var a := RunInv(r, threads, i);
    var s := r[i];
    if s.head.Some? {
      HeadCounted(s, a, t);
      KnowPc(s, a, t);
    }
    s0 := s.(pc := s.pc[t := Start]);
    var s1 := s.(pc := s.pc[t := Top(s.head)]);
    s', n := FromTop(s, s1, t);
    First(s0, s1, s', t, n);
    n := n + 1;
  }

  lemma FromTop(s: State, s1: State, t: Tid) returns (s': State, n: nat)
    requires t in s.pc && s.pc[t] == Idle && s1 == s.(pc := s.pc[t := Top(s.head)])
    requires s.head.Some? ==> s.head.value in s.refs && s.head.value in s.next
    requires s.head.Some? ==> 0 < s.refs[s.head.value] < SHOULD_BE_ON_FREELIST
    ensures Solo(s1, s', t, n) && Popped(s, s')
  {
    hide Solo;
    if s.head == None {
      assert s.pc[t := Idle] == s.pc;
      s' := s;
      SoloNone(s', t);
      First(s1, s', s', t, 0);
      n := 1;
    } else {
      s', n := TakeHead(s, s1, t, s.head.value);
    }
  }

  lemma TakeHead(s: State, s1: State, t: Tid, n: Node) returns (s': State, k: nat)
    requires t in s.pc && s.pc[t] == Idle && s.head == Some(n) && s1 == s.(pc := s.pc[t := Top(s.head)])
    requires n in s.refs && n in s.next && 0 < s.refs[n] < SHOULD_BE_ON_FREELIST
    ensures Solo(s1, s', t, k) && Popped(s, s')
  {
    hide Solo, Popped;
    var x, m := s.refs[n], s.refs[n := s.refs[n] + 1];
    NoWrap(x, 1);
    var s2 := s.(pc := s.pc[t := CasRefs(n, x)]);
    var s3 := s.(refs := m, pc := s.pc[t := ReadNext(n)]);
    var s4 := s.(refs := m, pc := s.pc[t := CasHead(n, s.next[n])]);
    var s5 := s.(refs := m, head := s.next[n], pc := s.pc[t := Release2(n)]);
    s' := LetGo(s, s5, t, n);
    First(s4, s5, s', t, 1);
    First(s3, s4, s', t, 2);
    First(s2, s3, s', t, 3);
    First(s1, s2, s', t, 4);
    k := 5;
  }

  lemma LetGo(s: State, s5: State, t: Tid, n: Node) returns (s': State)
    requires t in s.pc && s.pc[t] == Idle && s.head == Some(n)
    requires n in s.refs && n in s.next && 0 < s.refs[n] < SHOULD_BE_ON_FREELIST
    requires s5 == s.(refs := s.refs[n := s.refs[n] + 1], head := s.next[n], pc := s.pc[t := Release2(n)])
    ensures Solo(s5, s', t, 1) && Popped(s, s')
  {
    hide Solo;
    var x := s.refs[n];
    NoWrap(x + 1, -2);
    s' := s.(refs := s.refs[n := x - 1], head := s.next[n], held := s.held + {n});
    assert s5.refs[n := x - 1] == s'.refs && s5.pc[t := Idle] == s'.pc;
    SoloNone(s', t);
    First(s5, s', s', t, 0);
  }

  /** What `add(n)` leaves behind: n in front, or left to those who still reference it. */
  ghost predicate Pushed(s: State, s': State, n: Node) {
    && n in s.refs && s'.held == s.held - {n} && s'.pc == s.pc
    && if s.refs[n] == 0
       then s'.head == Some(n) && s'.next == s.next[n := s.head] && s'.refs == s.refs[n := 1]
       else s'.head == s.head && s'.next == s.next && s'.refs == s.refs[n := s.refs[n] + SHOULD_BE_ON_FREELIST]
  }

  /** An `add` that nobody disturbs. */
  lemma AddsAlone(r: seq<State>, threads: set<Tid>, i: nat, t: Tid, n: Node) returns (s0: State, s': State, k: nat)
    requires Run(r, threads) && |threads| <= MAX_THREADS && i < |r| && t in r[i].pc && r[i].pc[t] == Idle
    requires n in r[i].held
    ensures Give(r[i], s0, t, n) && Step(r[i], s0, t)
    ensures Solo(s0, s', t, k) && Pushed(r[i], s', n)
  {
    hide Run, Inv, Pushed, Solo;
    var a := RunInv(r, threads, i);
    var s := r[i];
    KnowKeys(s, a, t);
    Know(s, a, t, n);
    NoWrap(s.refs[n], SHOULD_BE_ON_FREELIST);
    s0 := s.(refs := s.refs[n := s.refs[n] + SHOULD_BE_ON_FREELIST], held := s.held - {n},
             pc := s.pc[t := if s.refs[n] == 0 then LoadHead(n, ToCaller) else Idle]);
    assert Give(s, s0, t, n);
    s', k := FromGive(s, s0, t, n);
  }

  lemma FromGive(s: State, s0: State, t: Tid, n: Node) returns (s': State, k: nat)
    requires t in s.pc && s.pc[t] == Idle && n in s.refs && n in s.next
    requires s0 == s.(refs := s.refs[n := s.refs[n] + SHOULD_BE_ON_FREELIST], held := s.held - {n},
                      pc := s.pc[t := if s.refs[n] == 0 then LoadHead(n, ToCaller) else Idle])
    ensures Solo(s0, s', t, k) && Pushed(s, s', n)
  {
    hide Solo, Step;
    assert s.pc[t := Idle] == s.pc;
    if s.refs[n] == 0 {
      s', k := PutInFront(s0, t, n);
      assert s'.refs == s.refs[n := 1] && s'.pc == s.pc;
    } else {
      s', k := s0, 0;
      SoloNone(s0, t);
    }
  }

  lemma PutInFront(s: State, t: Tid, n: Node) returns (s': State, k: nat)
    requires t in s.pc && s.pc[t] == LoadHead(n, ToCaller) && n in s.refs && n in s.next
    ensures Solo(s, s', t, k)
    ensures s' == s.(head := Some(n), next := s.next[n := s.head], refs := s.refs[n := 1], pc := s.pc[t := Idle])
  {
    hide Solo;
    var h, c := s.head, ToCaller;
    var s1 := s.(pc := s.pc[t := SetNext(n, h, c)]);
    var s2 := s.(next := s.next[n := h], pc := s.pc[t := StoreRefs(n, h, c)]);
    var s3 := s.(next := s.next[n := h], refs := s.refs[n := 1], pc := s.pc[t := CasNode(n, h, c)]);
    s' := s.(head := Some(n), next := s.next[n := h], refs := s.refs[n := 1], pc := s.pc[t := Idle]);
    SoloNone(s', t);
    First(s3, s', s', t, 0);
    First(s2, s3, s', t, 1);
    First(s1, s2, s', t, 2);
    First(s, s1, s', t, 3);
    k := 4;
  }

  // ---------- The bound on the number of threads is exact ----------

  lemma Append(r: seq<State>, threads: set<Tid>, s: State, t: Tid)
    requires |r| > 0 && Run(r, threads) && t in r[|r| - 1].pc && Step(r[|r| - 1], s, t)
    ensures Run(r + [s], threads)
  {
    hide Step, Init;
    var q := r + [s];
    forall i {:trigger q[i]} | 0 <= i < |q| - 1 ensures Next(q[i], q[i + 1]) {
      if i < |r| - 1 { assert q[i] == r[i] && q[i + 1] == r[i + 1]; }
    }
  }

  /** Node n is alone on the list and the threads in `inside` have counted a reference to it. */
  ghost predicate Crowd(s: State, threads: set<Tid>, n: Node, inside: set<Tid>) {
    && s.head == Some(n) && s.refs == map[n := 1 + |inside|] && s.next == map[n := None] && s.held == {}
    && s.pc.Keys == threads && inside <= threads
    && forall t | t in threads :: s.pc[t] == if t in inside then ReadNext(n) else Idle
  }

  ghost predicate FirstGiven(s: State, threads: set<Tid>, t: Tid) {
    && s.head == None && s.refs == map[0 := SHOULD_BE_ON_FREELIST] && s.next == map[0 := None] && s.held == {}
    && t in threads && s.pc.Keys == threads
    && forall u | u in threads :: s.pc[u] == if u == t then LoadHead(0, ToCaller) else Idle
  }

  /** One thread makes node 0 and calls `add` on it. */
  lemma GiveFirst(threads: set<Tid>, t: Tid) returns (r: seq<State>)
    requires t in threads
    ensures |r| > 0 && Run(r, threads) && FirstGiven(r[|r| - 1], threads, t)
  {
    var pc := map u | u in threads :: Idle;
    var s := State(None, map[], map[], {}, pc);
    r := [s];
    assert Run(r, threads);
    hide Run;
    var s1 := s.(refs := map[0 := 0], next := map[0 := None], held := {0});
    assert Create(s, s1, t, 0);
    Append(r, threads, s1, t); r := r + [s1];
    var s2 := State(None, map[0 := SHOULD_BE_ON_FREELIST], map[0 := None], {}, pc[t := LoadHead(0, ToCaller)]);
    assert Give(s1, s2, t, 0);
    Append(r, threads, s2, t); r := r + [s2];
  }

  lemma Gather(threads: set<Tid>, t: Tid) returns (r: seq<State>)
    requires t in threads
    ensures |r| > 0 && Run(r, threads) && Crowd(r[|r| - 1], threads, 0, {})
  {
    hide Run;
    r := GiveFirst(threads, t);
    var s2 := r[|r| - 1];
    var s3 := s2.(pc := s2.pc[t := SetNext(0, None, ToCaller)]);
    Append(r, threads, s3, t); r := r + [s3];
    var s4 := s3.(next := s3.next[0 := None], pc := s3.pc[t := StoreRefs(0, None, ToCaller)]);
    Append(r, threads, s4, t); r := r + [s4];
    var s5 := s4.(refs := s4.refs[0 := 1], pc := s4.pc[t := CasNode(0, None, ToCaller)]);
    Append(r, threads, s5, t); r := r + [s5];
    var s6 := s5.(head := Some(0), pc := s5.pc[t := Idle]);
    Append(r, threads, s6, t); r := r + [s6];
  }

  lemma Enter(r: seq<State>, threads: set<Tid>, n: Node, inside: set<Tid>, t: Tid) returns (q: seq<State>)
    requires |r| > 0 && Run(r, threads) && Crowd(r[|r| - 1], threads, n, inside)
    requires t in threads - inside && |inside| < SHOULD_BE_ON_FREELIST - 1
    ensures |q| > 0 && Run(q, threads) && Crowd(q[|q| - 1], threads, n, inside + {t})
  {
    hide Run;
    var s, c := r[|r| - 1], 1 + |inside|;
    var s1 := s.(pc := s.pc[t := Start]);
    Append(r, threads, s1, t); q := r + [s1];
    var s2 := s1.(pc := s1.pc[t := Top(Some(n))]);
    Append(q, threads, s2, t); q := q + [s2];
    var s3 := s2.(pc := s2.pc[t := CasRefs(n, c)]);
    Append(q, threads, s3, t); q := q + [s3];
    NoWrap(c, 1);
    var s4 := s3.(refs := s3.refs[n := c + 1], pc := s3.pc[t := ReadNext(n)]);
    Append(q, threads, s4, t); q := q + [s4];
    assert s4.refs == map[n := 1 + |inside + {t}|];
  }

  lemma {:induction false} Fill(r: seq<State>, threads: set<Tid>, n: Node, inside: set<Tid>)
    returns (q: seq<State>, all: set<Tid>)
    requires |r| > 0 && Run(r, threads) && Crowd(r[|r| - 1], threads, n, inside)
    requires |inside| <= SHOULD_BE_ON_FREELIST - 1 <= |threads|
    ensures |q| > 0 && Run(q, threads) && Crowd(q[|q| - 1], threads, n, all) && |all| == SHOULD_BE_ON_FREELIST - 1
    decreases SHOULD_BE_ON_FREELIST - |inside|
  {
    hide Run;
    if |inside| == SHOULD_BE_ON_FREELIST - 1 {
      q, all := r, inside;
    } else {
      assert threads - inside != {} by {
        assert threads == inside + (threads - inside);
      }
      var t :| t in threads - inside;
      q := Enter(r, threads, n, inside, t);
      q, all := Fill(q, threads, n, inside + {t});
    }
  }

  /** With 2^31 - 1 threads the count can reach the flag bit, and try_get's assertion fails. */
  lemma TooManyThreads(threads: set<Tid>) returns (r: seq<State>)
    requires |threads| > MAX_THREADS
    ensures |r| > 0 && Run(r, threads) && !FlagClear(r[|r| - 1])
  {
    hide Run;
    var t :| t in threads;
    r := Gather(threads, t);
    var all;
    r, all := Fill(r, threads, 0, {});
    var u :| u in all;
    var s := r[|r| - 1];
    var s1 := s.(pc := s.pc[u := CasHead(0, None)]);
    Append(r, threads, s1, u); r := r + [s1];
    var s2 := s1.(head := None, pc := s1.pc[u := Release2(0)]);
    Append(r, threads, s2, u); r := r + [s2];
    assert s2.pc[u] == Release2(0) && s2.refs[0] == SHOULD_BE_ON_FREELIST;
  }

  /** try_get's assertion holds in every run exactly when there are at most 2^31 - 2 threads. */
  lemma FlagClearIff(threads: set<Tid>)
    ensures (forall r | Run(r, threads) :: FlagClear(r[|r| - 1])) <==> |threads| <= MAX_THREADS
  {
    hide FlagClear;
    if |threads| <= MAX_THREADS {
      forall r | Run(r, threads) ensures FlagClear(r[|r| - 1]) {
        FreeListSafe(r, threads);
        assert Safe(r[|r| - 1]);
      }
    } else {
      var r := TooManyThreads(threads);
    }
  }
}
