/**
 How any number of consumers share one producer's elements: the optimistic count and
 overcommit protocol of `dequeue` and `dequeue_bulk`.

 The machine is written once, for words of modulus M, where M == 0 stands for counters
 that never wrap.  A schedule lists the atomic steps in the order they happen.  A single
 dequeue is a bulk dequeue of at most one element.
 */
module DequeueProtocol {
  import opened ModArith

  type Tid = nat

  /** What the `fetch_add` on headIndex gave to one consumer. */
  datatype Claim = Claim(t: Tid, start: int, count: int)

  /** Program counters: the atomic access about to be made, with the locals read so far. */
  datatype Pc =
    | Idle
    | LoadOver(tail: int, max: nat)          // load dequeueOvercommit
    | LoadOpt(tail: int, v: int, max: nat)   // load dequeueOptimisticCount and compare
    | AddOpt(v: int, d: int)                 // fetch_add(d) on dequeueOptimisticCount
    | LoadTail(v: int, m: int, d: int)       // reload tailIndex and compare
    | AddOver(a: int, o: int)                // fetch_add(o) on dequeueOvercommit, a still to claim
    | AddHead(a: int)                        // fetch_add(a) on headIndex

  datatype State = State(tail: int, head: int, opt: int, over: int, pc: map<Tid, Pc>, claims: seq<Claim>)

  datatype Act = Publish(k: nat) | Begin(t: Tid, max: nat) | Move(t: Tid)

  const Start := State(0, 0, 0, 0, map[], [])

  function At(s: State, t: Tid): Pc { if t in s.pc then s.pc[t] else Idle }

  function Word(M: nat, x: int): int { if M == 0 then x else x % M }

  /** `circular_less_than` on words of modulus M. */
  predicate CircularLessThan(M: nat, a: int, b: int)
    requires M > 0
  {
    (a - b) % M > M / 2
  }

  predicate Less(M: nat, a: int, b: int) { if M == 0 then a < b else CircularLessThan(M, a, b) }

  function Min(x: int, y: int): int { if x < y then x else y }

  function Next(M: nat, s: State, act: Act): State {
    match act
    case Publish(k) => s.(tail := Word(M, s.tail + k))
    case Begin(t, max) => if At(s, t) == Idle then s.(pc := s.pc[t := LoadOver(s.tail, max)]) else s
    case Move(t) =>
      match At(s, t)
      case Idle => s
      case LoadOver(tail, max) => s.(pc := s.pc[t := LoadOpt(tail, s.over, max)])
      case LoadOpt(tail, v, max) =>
        var desired := Word(M, tail - (s.opt - v));
        s.(pc := s.pc[t := if Less(M, 0, desired) then AddOpt(v, Min(desired, max)) else Idle])
      case AddOpt(v, d) => s.(opt := Word(M, s.opt + d), pc := s.pc[t := LoadTail(v, s.opt, d)])
      case LoadTail(v, m, d) =>
        var actual := Word(M, s.tail - (m - v));
        if Less(M, 0, actual) then
          var a := Min(d, actual);
          s.(pc := s.pc[t := if a < d then AddOver(a, d - a) else AddHead(a)])
        else
          s.(pc := s.pc[t := AddOver(0, d)])
      case AddOver(a, o) => s.(over := Word(M, s.over + o), pc := s.pc[t := if a > 0 then AddHead(a) else Idle])
      case AddHead(a) =>
        s.(head := Word(M, s.head + a), pc := s.pc[t := Idle], claims := s.claims + [Claim(t, s.head, a)])
  }

  function Exec(M: nat, acts: seq<Act>): State {
    if acts == [] then Start else Next(M, Exec(M, acts[..|acts| - 1]), acts[|acts| - 1])
  }

  // ---------- The invariant, over counters that never wrap ----------

  /**
   One ticket per fetch_add on the optimistic count: the overcommit read before it, the
   elements it asks for, those it has been granted, given back, and drawn from the head.
   */
  datatype Ticket = Ticket(v: int, d: int, a: int, o: int, h: int)
  datatype Field = Asked | Granted | Returned | Drawn

  function Get(x: Ticket, f: Field): int {
    match f
    case Asked => x.d
    case Granted => x.a
    case Returned => x.o
    case Drawn => x.h
  }

  function Sum(q: seq<Ticket>, f: Field): int {
    if q == [] then 0 else Sum(q[..|q| - 1], f) + Get(q[|q| - 1], f)
  }

  /** All tickets in the order they were drawn, and which one a consumer is working on. */
  datatype Aux = Aux(q: seq<Ticket>, at: map<Tid, nat>)

  predicate Sound(x: Ticket) { 0 <= x.h <= x.a && 0 <= x.o && x.a + x.o <= x.d }

  /** A ticket only counts overcommit of earlier tickets, and is granted what was published by then. */
  ghost predicate TicketOk(s: State, q: seq<Ticket>, i: nat)
    requires i < |q|
  {
    && Sound(q[i]) && q[i].v <= Sum(q[..i], Returned)
    && (q[i].a > 0 ==> Sum(q[..i], Asked) - q[i].v + q[i].a <= s.tail)
  }

  ghost predicate PcOk(s: State, a: Aux, t: Tid) {
    match At(s, t)
    case Idle => t !in a.at
    case LoadOver(_, _) => t !in a.at
    case LoadOpt(_, v, _) => t !in a.at && v <= s.over
    case AddOpt(v, d) => t !in a.at && v <= s.over && d >= 0
    case LoadTail(v, m, d) =>
      t in a.at && a.at[t] < |a.q| && a.q[a.at[t]] == Ticket(v, d, 0, 0, 0) && m == Sum(a.q[..a.at[t]], Asked)
    case AddOver(g, o) =>
      t in a.at && a.at[t] < |a.q| && 0 <= g && 0 <= o && a.q[a.at[t]].(v := 0) == Ticket(0, g + o, g, 0, 0)
    case AddHead(g) =>
      t in a.at && a.at[t] < |a.q| && a.q[a.at[t]].a == g && a.q[a.at[t]].h == 0 &&
        a.q[a.at[t]].a + a.q[a.at[t]].o == a.q[a.at[t]].d
  }

  predicate Settled(x: Ticket) { x.a + x.o == x.d && x.h == x.a }

  ghost predicate Inv(s: State, a: Aux) {
    && s.opt == Sum(a.q, Asked) && s.over == Sum(a.q, Returned) && s.head == Sum(a.q, Drawn)
    && (forall i | 0 <= i < |a.q| :: TicketOk(s, a.q, i))
    && (forall t :: PcOk(s, a, t))
    && (forall t, u | t in a.at && u in a.at && a.at[t] == a.at[u] :: t == u)
    && (forall i | 0 <= i < |a.q| :: i in a.at.Values || Settled(a.q[i]))
  }

  lemma {:induction false} SumUpdate(q: seq<Ticket>, k: nat, x: Ticket, f: Field)
    requires k < |q|
    ensures Sum(q[k := x], f) == Sum(q, f) - Get(q[k], f) + Get(x, f)
  {
    var q' := q[k := x];
    if k == |q| - 1 {
      assert q'[..|q| - 1] == q[..|q| - 1];
    } else {
      assert q'[..|q| - 1] == q[..|q| - 1][k := x];
      SumUpdate(q[..|q| - 1], k, x, f);
    }
  }

  lemma PrefixUpdate(q: seq<Ticket>, k: nat, x: Ticket, f: Field, i: nat)
    requires k < |q| && i <= |q|
    ensures Sum(q[k := x][..i], f) == Sum(q[..i], f) + if k < i then Get(x, f) - Get(q[k], f) else 0
  {
    if k < i {
      assert q[k := x][..i] == q[..i][k := x];
      SumUpdate(q[..i], k, x, f);
    } else {
      assert q[k := x][..i] == q[..i];
    }
  }

  lemma SumAppend(q: seq<Ticket>, x: Ticket, f: Field)
    ensures Sum(q + [x], f) == Sum(q, f) + Get(x, f)
  {
    assert (q + [x])[..|q|] == q;
  }

  lemma {:induction false} Balance(q: seq<Ticket>)
    requires forall i | 0 <= i < |q| :: Sound(q[i])
    ensures 0 <= Sum(q, Drawn) <= Sum(q, Granted) && 0 <= Sum(q, Returned)
    ensures Sum(q, Granted) + Sum(q, Returned) <= Sum(q, Asked)
  {
    if q != [] { Balance(q[..|q| - 1]); }
  }

  /** Everything granted so far has been published. */
  lemma {:induction false} GrantedPublished(s: State, q: seq<Ticket>, n: nat)
    requires n <= |q| && s.tail >= 0
    requires forall i | 0 <= i < |q| :: TicketOk(s, q, i)
    ensures Sum(q[..n], Granted) <= s.tail
  {
    if n > 0 {
      assert TicketOk(s, q, n - 1);
      assert q[..n][..n - 1] == q[..n - 1];
      GrantedPublished(s, q, n - 1);
      assert forall i | 0 <= i < n - 1 :: TicketOk(s, q, i) && Sound(q[i]);
      Balance(q[..n - 1]);
    }
  }

  // ---------- Every step keeps the invariant ----------

  /** A consumer moves without touching a ticket. */
  lemma KeepLocal(s: State, s': State, t: Tid, p: Pc, a: Aux)
    requires Inv(s, a) && s' == s.(pc := s.pc[t := p]) && t !in a.at
    requires PcOk(s', a, t)
    ensures Inv(s', a)
  {
    forall u ensures PcOk(s', a, u) { assert PcOk(s, a, u); }
    forall i | 0 <= i < |a.q| ensures TicketOk(s', a.q, i) { assert TicketOk(s, a.q, i); }
  }

  /** A consumer works on its own ticket k; only that ticket and that consumer change. */
  lemma TicketsKeep(s: State, s': State, k: nat, x: Ticket, a: Aux, q': seq<Ticket>)
    requires (forall i | 0 <= i < |a.q| :: TicketOk(s, a.q, i)) && k < |a.q| && s'.tail == s.tail
    requires q' == a.q[k := x] && x.v == a.q[k].v && x.d == a.q[k].d && x.o >= a.q[k].o && Sound(x)
    requires x.a > 0 ==> Sum(a.q[..k], Asked) - x.v + x.a <= s.tail
    ensures forall i | 0 <= i < |q'| :: TicketOk(s', q', i)
  {
    forall i | 0 <= i < |q'| ensures TicketOk(s', q', i) {
      assert TicketOk(s, a.q, i);
      PrefixUpdate(a.q, k, x, Asked, i);
      PrefixUpdate(a.q, k, x, Returned, i);
    }
  }

  /** The other consumers' tickets are other tickets, and what they know of theirs still holds. */
  lemma OthersKeep(s: State, s': State, t: Tid, p: Pc, x: Ticket, a: Aux, a': Aux, u: Tid)
    requires PcOk(s, a, u) && u != t && t in a.at && a.at[t] < |a.q| && s.over <= s'.over
    requires u in a.at ==> a.at[u] != a.at[t]
    requires s'.pc == s.pc[t := p] && x.d == a.q[a.at[t]].d
    requires a'.q == a.q[a.at[t] := x] && (a'.at == a.at || a'.at == a.at - {t})
    ensures PcOk(s', a', u)
  {
    if At(s, u).LoadTail? { PrefixUpdate(a.q, a.at[t], x, Asked, a.at[u]); }
  }

  lemma KeepTicket(s: State, s': State, t: Tid, p: Pc, x: Ticket, a: Aux, a': Aux)
    requires Inv(s, a) && t in a.at && a.at[t] < |a.q|
    requires s' == s.(over := s'.over, head := s'.head, claims := s'.claims, pc := s.pc[t := p])
    requires a'.q == a.q[a.at[t] := x] && a'.at == (if p == Idle then a.at - {t} else a.at)
    requires x.v == a.q[a.at[t]].v && x.d == a.q[a.at[t]].d && x.o >= a.q[a.at[t]].o && Sound(x)
    requires s'.over == s.over + x.o - a.q[a.at[t]].o && s'.head == s.head + x.h - a.q[a.at[t]].h
    requires x.a > 0 ==> Sum(a.q[..a.at[t]], Asked) - x.v + x.a <= s.tail
    requires PcOk(s', a', t) && (p == Idle ==> Settled(x))
    ensures Inv(s', a')
  {
    hide TicketOk, PcOk;
    var k := a.at[t];
    TicketsKeep(s, s', k, x, a, a'.q);
    SumUpdate(a.q, k, x, Asked);
    SumUpdate(a.q, k, x, Returned);
    SumUpdate(a.q, k, x, Drawn);
    forall u ensures PcOk(s', a', u) { if u != t { OthersKeep(s, s', t, p, x, a, a', u); } }
    forall i | 0 <= i < |a'.q| ensures i in a'.at.Values || Settled(a'.q[i]) {
      if i in a.at.Values && i != k {
        var u :| u in a.at && a.at[u] == i;
        assert u in a'.at && a'.at[u] == i;
      } else if i == k && p != Idle {
        assert t in a'.at;
      }
    }
  }

  /** What the invariant says about one consumer's ticket. */
  lemma Know(s: State, a: Aux, t: Tid)
    requires Inv(s, a)
    ensures PcOk(s, a, t) && (t in a.at && a.at[t] < |a.q| ==> TicketOk(s, a.q, a.at[t]))
  {}

  lemma KeepDraw(s: State, s': State, t: Tid, v: int, d: int, a: Aux) returns (a': Aux)
    requires Inv(s, a) && At(s, t) == AddOpt(v, d)
    requires s' == s.(opt := s.opt + d, pc := s.pc[t := LoadTail(v, s.opt, d)])
    ensures Inv(s', a')
  {
    var x := Ticket(v, d, 0, 0, 0);
    a' := Aux(a.q + [x], a.at[t := |a.q|]);
    Know(s, a, t);
    SumAppend(a.q, x, Asked);
    SumAppend(a.q, x, Returned);
    SumAppend(a.q, x, Drawn);
    DrawTickets(s, s', x, a, a');
    DrawPcs(s, s', t, x, a, a');
    DrawPlaces(s, t, x, a, a');
    hide TicketOk, PcOk, Settled, Sum;
  }

  lemma DrawTickets(s: State, s': State, x: Ticket, a: Aux, a': Aux)
    requires Inv(s, a) && a'.q == a.q + [x] && s'.tail == s.tail && x == Ticket(x.v, x.d, 0, 0, 0) && x.d >= 0 &&
      x.v <= s.over
    ensures forall i | 0 <= i < |a'.q| :: TicketOk(s', a'.q, i)
  {
    forall i | 0 <= i < |a'.q| ensures TicketOk(s', a'.q, i) {
      assert a'.q[..i] == a.q[..i];
      if i < |a.q| { assert TicketOk(s, a.q, i); } else { assert a.q[..i] == a.q; }
    }
  }

  lemma DrawPcs(s: State, s': State, t: Tid, x: Ticket, a: Aux, a': Aux)
    requires Inv(s, a) && At(s, t).AddOpt? && a' == Aux(a.q + [x], a.at[t := |a.q|])
    requires s' == s.(opt := s'.opt, pc := s.pc[t := LoadTail(x.v, s.opt, x.d)]) && x == Ticket(x.v, x.d, 0, 0, 0)
    ensures forall u :: PcOk(s', a', u)
  {
    forall u ensures PcOk(s', a', u) {
      assert PcOk(s, a, u);
      if u in a.at && a.at[u] < |a.q| { assert a'.q[..a.at[u]] == a.q[..a.at[u]]; }
      assert a'.q[..|a.q|] == a.q;
    }
  }

  lemma DrawPlaces(s: State, t: Tid, x: Ticket, a: Aux, a': Aux)
    requires Inv(s, a) && At(s, t).AddOpt? && a' == Aux(a.q + [x], a.at[t := |a.q|])
    ensures forall i | 0 <= i < |a'.q| :: i in a'.at.Values || Settled(a'.q[i])
    ensures forall u, w | u in a'.at && w in a'.at && a'.at[u] == a'.at[w] :: u == w
  {
    forall i | 0 <= i < |a'.q| ensures i in a'.at.Values || Settled(a'.q[i]) {
      if i == |a.q| { assert t in a'.at; }
      else if i in a.at.Values {
        assert PcOk(s, a, t);
        var u :| u in a.at && a.at[u] == i;
        assert u in a'.at && a'.at[u] == i;
      }
    }
    forall u, w | u in a'.at && w in a'.at && a'.at[u] == a'.at[w] ensures u == w {
      assert PcOk(s, a, u) && PcOk(s, a, w);
    }
  }

  lemma KeepPublish(s: State, s': State, k: nat, a: Aux)
    requires Inv(s, a) && s' == s.(tail := s.tail + k)
    ensures Inv(s', a)
  {
    forall u ensures PcOk(s', a, u) { assert PcOk(s, a, u); }
    forall i | 0 <= i < |a.q| ensures TicketOk(s', a.q, i) { assert TicketOk(s, a.q, i); }
  }

  /** Any step of any consumer. */
  lemma KeepMove(s: State, t: Tid, a: Aux) returns (a': Aux)
    requires Inv(s, a)
    ensures Inv(Next(0, s, Move(t)), a')
  {
    hide Inv;
    Know(s, a, t);
    a' := a;
    var s' := Next(0, s, Move(t));
    match At(s, t)
    case Idle =>
    case LoadOver(tail, max) => KeepLocal(s, s', t, LoadOpt(tail, s.over, max), a);
    case LoadOpt(tail, v, max) => KeepLocal(s, s', t, s'.pc[t], a);
    case AddOpt(v, d) => a' := KeepDraw(s, s', t, v, d, a);
    case LoadTail(v, m, d) =>
      var g := Min(d, s.tail - (m - v));
      var x := Ticket(v, d, if 0 < s.tail - (m - v) then g else 0, 0, 0);
      a' := a.(q := a.q[a.at[t] := x]);
      KeepTicket(s, s', t, s'.pc[t], x, a, a');
    case AddOver(g, o) =>
      var x := a.q[a.at[t]].(o := o);
      a' := Aux(a.q[a.at[t] := x], if g > 0 then a.at else a.at - {t});
      KeepTicket(s, s', t, s'.pc[t], x, a, a');
    case AddHead(g) =>
      var x := a.q[a.at[t]].(h := g);
      a' := Aux(a.q[a.at[t] := x], a.at - {t});
      KeepTicket(s, s', t, Idle, x, a, a');
  }

  lemma {:induction false} ExecInv(acts: seq<Act>) returns (a: Aux)
    ensures Inv(Exec(0, acts), a)
  {
    if acts == [] {
      a := Aux([], map[]);
    } else {
      var n := |acts| - 1;
      var s := Exec(0, acts[..n]);
      a := ExecInv(acts[..n]);
      match acts[n]
      case Publish(k) => KeepPublish(s, Next(0, s, acts[n]), k, a);
      case Begin(t, max) =>
        Know(s, a, t);
        if At(s, t) == Idle { KeepLocal(s, Next(0, s, acts[n]), t, LoadOver(s.tail, max), a); }
      case Move(t) => a := KeepMove(s, t, a);
    }
  }

  // ---------- What every schedule guarantees ----------

  lemma {:induction false} TailGrows(acts: seq<Act>)
    ensures Exec(0, acts).tail >= 0
  {
    if acts != [] { TailGrows(acts[..|acts| - 1]); }
  }

  /** Elements handed out, and elements granted but not yet drawn, have all been published. */
  lemma HeadBehindTail(acts: seq<Act>)
    ensures 0 <= Exec(0, acts).head <= Exec(0, acts).tail
  {
    var s := Exec(0, acts);
    var a := ExecInv(acts);
    TailGrows(acts);
    assert a.q[..|a.q|] == a.q;
    GrantedPublished(s, a.q, |a.q|);
    forall i | 0 <= i < |a.q| ensures Sound(a.q[i]) { assert TicketOk(s, a.q, i); }
    Balance(a.q);
  }

  predicate Holds(c: Claim, i: int) { c.start <= i < c.start + c.count }

  /** Claims follow one another without gap or overlap, from index 0 up to the head. */
  ghost predicate Contiguous(c: seq<Claim>, head: int) {
    && (forall i | 0 <= i < |c| :: c[i].count >= 0)
    && (if c == [] then head == 0 else c[0].start == 0 && c[|c| - 1].start + c[|c| - 1].count == head)
    && (forall i, j | 0 <= i < j < |c| :: c[i].start + c[i].count <= c[j].start)
    && (forall i, j | 0 <= i && j == i + 1 < |c| :: c[j].start == c[i].start + c[i].count)
  }

  lemma {:induction false} ClaimsContiguous(acts: seq<Act>)
    ensures Contiguous(Exec(0, acts).claims, Exec(0, acts).head)
  {
    if acts != [] {
      var n := |acts| - 1;
      ClaimsContiguous(acts[..n]);
      if acts[n].Move? && At(Exec(0, acts[..n]), acts[n].t).AddHead? {
        var a := ExecInv(acts[..n]);
        Know(Exec(0, acts[..n]), a, acts[n].t);
      }
    }
  }

  lemma {:induction false} CoveredOnce(c: seq<Claim>, head: int, i: int, n: nat) returns (k: nat)
    requires Contiguous(c, head) && n < |c| && 0 <= i < c[n].start + c[n].count
    ensures k <= n && Holds(c[k], i)
  {
    if c[n].start <= i { k := n; } else { k := CoveredOnce(c, head, i, n - 1); }
  }

  /** Every index below the head was given to exactly one claim, and no other index to any. */
  lemma ClaimedExactlyOnce(acts: seq<Act>, i: int)
    ensures 0 <= i < Exec(0, acts).head <==> exists c :: c in Exec(0, acts).claims && Holds(c, i)
    ensures forall k, l | 0 <= k < l < |Exec(0, acts).claims| ::
      !(Holds(Exec(0, acts).claims[k], i) && Holds(Exec(0, acts).claims[l], i))
  {
    ClaimsContiguous(acts);
    var c := Exec(0, acts).claims;
    if 0 <= i < Exec(0, acts).head {
      var k := CoveredOnce(c, Exec(0, acts).head, i, |c| - 1);
    }
  }

  lemma {:induction false} AllSettled(q: seq<Ticket>)
    requires forall i | 0 <= i < |q| :: Settled(q[i])
    ensures Sum(q, Asked) == Sum(q, Drawn) + Sum(q, Returned)
  {
    if q != [] { AllSettled(q[..|q| - 1]); }
  }

  /** When no consumer is inside, the optimistic count less the overcommit is exactly the head. */
  lemma QuietExact(acts: seq<Act>)
    requires forall t :: At(Exec(0, acts), t) == Idle
    ensures Exec(0, acts).opt - Exec(0, acts).over == Exec(0, acts).head
  {
    var s := Exec(0, acts);
    var a := ExecInv(acts);
    forall t ensures t !in a.at { assert PcOk(s, a, t); }
    AllSettled(a.q);
  }

  // ---------- When a call must claim ----------

  /** The state before step n of a schedule. */
  function Before(acts: seq<Act>, n: nat): State
    requires n <= |acts|
  {
    Exec(0, acts[..n])
  }

  lemma StepOf(acts: seq<Act>, n: nat)
    requires n < |acts|
    ensures Before(acts, n + 1) == Next(0, Before(acts, n), acts[n])
  {
    assert acts[..n + 1][..n] == acts[..n];
  }

  /**
   When a call made its accesses: it loaded the tail as it began, the overcommit, the optimistic
   count, added to that count, and loaded the tail again.
   */
  datatype Times = Times(began: nat, over: nat, opt: nat, added: nat, tail: nat)

  /** The call of consumer t for at most max elements that began at x.began is still open before step n. */
  ghost predicate Open(acts: seq<Act>, n: nat, t: Tid, max: nat, x: Times) {
    && x.began < n <= |acts| && acts[x.began] == Begin(t, max) && At(Before(acts, x.began), t) == Idle
    && forall k | x.began < k <= n :: At(Before(acts, k), t) != Idle
  }

  /** What the call took to be left at its first look, and at its second. */
  function First(acts: seq<Act>, x: Times): int
    requires x.began <= |acts| && x.over <= |acts| && x.opt <= |acts|
  {
    Before(acts, x.began).tail - (Before(acts, x.opt).opt - Before(acts, x.over).over)
  }

  function Second(acts: seq<Act>, x: Times): int
    requires x.tail <= |acts| && x.over <= |acts| && x.added <= |acts|
  {
    Before(acts, x.tail).tail - (Before(acts, x.added).opt - Before(acts, x.over).over)
  }

  /** What an open call has in its locals goes back to those accesses. */
  ghost predicate Told(acts: seq<Act>, n: nat, t: Tid, max: nat, x: Times) {
    && Open(acts, n, t, max, x)
    && match At(Before(acts, n), t)
       case Idle => false
       case LoadOver(tail, m) => m == max && tail == Before(acts, x.began).tail
       case LoadOpt(tail, v, m) =>
         && m == max && tail == Before(acts, x.began).tail
         && x.began < x.over < n && v == Before(acts, x.over).over
       case AddOpt(v, d) =>
         && x.began < x.over < x.opt < n && v == Before(acts, x.over).over
         && First(acts, x) > 0 && d == Min(First(acts, x), max)
       case LoadTail(v, m, d) =>
         && x.began < x.over < x.opt < x.added < n && v == Before(acts, x.over).over
         && m == Before(acts, x.added).opt
         && First(acts, x) > 0 && d == Min(First(acts, x), max)
       case AddOver(a, o) =>
         && Looked(acts, n, x) && a + o == Min(First(acts, x), max) && (Second(acts, x) > 0 ==> a < a + o)
         && a == if Second(acts, x) > 0 then Min(Min(First(acts, x), max), Second(acts, x)) else 0
       case AddHead(a) =>
         && Looked(acts, n, x) && Second(acts, x) > 0
         && a == Min(Min(First(acts, x), max), Second(acts, x))
  }

  /** Both looks are over, and the first was favourable. */
  ghost predicate Looked(acts: seq<Act>, n: nat, x: Times) {
    && x.began < x.over < x.opt < x.added < x.tail < n <= |acts|
    && First(acts, x) > 0
  }

  lemma TraceStep(acts: seq<Act>, n: nat, t: Tid, max: nat, x: Times) returns (y: Times)
    requires n < |acts| && Told(acts, n, t, max, x) && acts[n] == Move(t) && At(Before(acts, n + 1), t) != Idle
    ensures Told(acts, n + 1, t, max, y)
  {
    hide Before;
    StepOf(acts, n);
    hide Exec;
    var s := Before(acts, n);
    match At(s, t)
    case LoadOver(_, _) => y := x.(over := n);
    case LoadOpt(_, _, _) => y := x.(opt := n);
    case AddOpt(_, _) => y := x.(added := n);
    case LoadTail(_, _, _) => y := x.(tail := n);
    case AddOver(_, _) => y := x;
  }

  lemma {:induction false} Trace(acts: seq<Act>, n: nat, t: Tid) returns (max: nat, x: Times)
    requires n <= |acts| && At(Before(acts, n), t) != Idle
    ensures Told(acts, n, t, max, x)
  {
    assert n > 0;
    StepOf(acts, n - 1);
    hide Told, Exec;
    var act, s := acts[n - 1], Before(acts, n - 1);
    if act.Begin? && act.t == t && At(s, t) == Idle {
      max, x := act.max, Times(n - 1, 0, 0, 0, 0);
      TraceBegin(acts, n - 1, t, max, x);
    } else {
      max, x := Trace(acts, n - 1, t);
      if act == Move(t) { x := TraceStep(acts, n - 1, t, max, x); } else { TraceOther(acts, n - 1, t, max, x); }
    }
  }

  lemma TraceBegin(acts: seq<Act>, n: nat, t: Tid, max: nat, x: Times)
    requires n < |acts| && acts[n] == Begin(t, max) && At(Before(acts, n), t) == Idle && x == Times(n, 0, 0, 0, 0)
    ensures Told(acts, n + 1, t, max, x)
  {
    hide Before;
    StepOf(acts, n);
  }

  lemma TraceOther(acts: seq<Act>, n: nat, t: Tid, max: nat, x: Times)
    requires n < |acts| && Told(acts, n, t, max, x) && At(Before(acts, n + 1), t) == At(Before(acts, n), t)
    ensures Told(acts, n + 1, t, max, x)
  {
    hide Before, Exec;
  }

  /**
   What a call does in every schedule.  It ends without a claim exactly when one of its two looks
   found nothing left; otherwise it claims, from the head on, as many elements as it asked for and
   both looks allowed.
   */
  lemma CallEnds(acts: seq<Act>, n: nat, t: Tid) returns (max: nat, x: Times)
    requires n < |acts| && At(Before(acts, n), t) != Idle && At(Before(acts, n + 1), t) == Idle
    ensures Open(acts, n, t, max, x) && x.began < x.over < x.opt <= n
    ensures First(acts, x) > 0 ==> x.opt < x.added < x.tail < n
    ensures Before(acts, n + 1).claims == Before(acts, n).claims +
      if First(acts, x) <= 0 || Second(acts, x) <= 0 then []
      else [Claim(t, Before(acts, n).head, Min(Min(First(acts, x), max), Second(acts, x)))]
  {
    max, x := Trace(acts, n, t);
    StepOf(acts, n);
    hide Exec, Before;
    if At(Before(acts, n), t).LoadOpt? { x := x.(opt := n, added := 0, tail := 0); }
  }

  /** How many of the steps belong to consumer t. */
  function Turns(acts: seq<Act>, t: Tid): nat {
    if acts == [] then 0 else Turns(acts[..|acts| - 1], t) + if acts[|acts| - 1] == Move(t) then 1 else 0
  }

  function Rank(p: Pc): nat {
    match p
    case Idle => 0
    case LoadOver(_, _) => 6
    case LoadOpt(_, _, _) => 5
    case AddOpt(_, _) => 4
    case LoadTail(_, _, _) => 3
    case AddOver(_, _) => 2
    case AddHead(_) => 1
  }

  /** No call is open for more than six steps of its own, whatever the others do meanwhile. */
  lemma {:induction false} WaitFree(acts: seq<Act>, n: nat, m: nat, t: Tid)
    requires n <= m <= |acts| && forall k | n <= k <= m :: At(Before(acts, k), t) != Idle
    ensures Turns(acts[n..m], t) + Rank(At(Before(acts, m), t)) <= Rank(At(Before(acts, n), t))
    ensures Turns(acts[n..m], t) < 6
  {
    hide Before;
    if n < m {
      WaitFree(acts, n, m - 1, t);
      StepOf(acts, m - 1);
      assert acts[n..m][..m - 1 - n] == acts[n..m - 1];
      assert At(Before(acts, m), t) != Idle;
    } else {
      assert acts[n..m] == [];
    }
  }

  /** One call, with nobody else inside. */
  function Lone(t: Tid, max: nat): seq<Act> { [Begin(t, max), Move(t), Move(t), Move(t), Move(t), Move(t)] }

  lemma Append(acts: seq<Act>, act: Act)
    ensures Exec(0, acts + [act]) == Next(0, Exec(0, acts), act)
  {
    assert (acts + [act])[..|acts|] == acts;
  }

  lemma LoneSteps(acts: seq<Act>, t: Tid, max: nat) returns (s1: State, s3: State, s6: State)
    ensures s1 == Next(0, Exec(0, acts), Begin(t, max))
    ensures s3 == Next(0, Next(0, s1, Move(t)), Move(t))
    ensures s6 == Next(0, Next(0, Next(0, s3, Move(t)), Move(t)), Move(t)) == Exec(0, acts + Lone(t, max))
  {
    hide Next;
    var a1, m := acts + [Begin(t, max)], Move(t);
    Append(acts, Begin(t, max));
    Append(a1, m);
    Append(a1 + [m], m);
    Append(a1 + [m] + [m], m);
    Append(a1 + [m] + [m] + [m], m);
    Append(a1 + [m] + [m] + [m] + [m], m);
    assert acts + Lone(t, max) == a1 + [m] + [m] + [m] + [m] + [m];
    s1, s3, s6 := Exec(0, a1), Exec(0, a1 + [m] + [m]), Exec(0, acts + Lone(t, max));
  }

  /** A call that finds nobody else inside gets what is there, from the head on, up to what it asked for. */
  lemma LoneCall(acts: seq<Act>, t: Tid, max: nat)
    requires forall u :: At(Exec(0, acts), u) == Idle
    ensures var s, s' := Exec(0, acts), Exec(0, acts + Lone(t, max));
      && (forall u :: At(s', u) == Idle) && s'.tail == s.tail
      && s'.claims == s.claims + (if s.tail > s.head then [Claim(t, s.head, Min(s.tail - s.head, max))] else [])
      && s'.head == s.head + (if s.tail > s.head then Min(s.tail - s.head, max) else 0)
  {
    QuietExact(acts);
    var s1, s3, s6 := LoneSteps(acts, t, max);
    hide Exec;
    var s := Exec(0, acts);
    assert At(s, t) == Idle;
    if s.tail > s.head {
      var d := Min(s.tail - s.head, max);
      assert s3.pc == s.pc[t := LoadOver(s.tail, max)][t := LoadOpt(s.tail, s.over, max)][t := AddOpt(s.over, d)];
      assert s6.pc == s3.pc[t := LoadTail(s.over, s.opt, d)][t := AddHead(d)][t := Idle];
      forall u ensures At(s6, u) == Idle { assert At(s, u) == Idle; }
    } else {
      assert At(s3, t) == Idle;
      forall u ensures At(s6, u) == Idle { assert At(s, u) == Idle; }
    }
  }

  /** What a consumer has asked for and neither drawn nor given back yet. */
  function Pending(p: Pc): int {
    match p
    case LoadTail(_, _, d) => d
    case AddOver(a, o) => a + o
    case AddHead(a) => a
    case _ => 0
  }

  /** The same for the consumers numbered below k together. */
  function PendingBelow(s: State, k: nat): int {
    if k == 0 then 0 else PendingBelow(s, k - 1) + Pending(At(s, k - 1))
  }

  /** The schedule's consumers are numbered below k, and none asks for more than d elements. */
  ghost predicate Within(acts: seq<Act>, k: nat, d: nat) {
    forall i | 0 <= i < |acts| ::
      match acts[i]
      case Publish(_) => true
      case Begin(t, max) => t < k && max <= d
      case Move(t) => t < k
  }

  lemma {:induction false} PendingChange(s: State, s': State, t: Tid, k: nat)
    requires forall u | u != t :: At(s', u) == At(s, u)
    ensures PendingBelow(s', k) == PendingBelow(s, k) + if t < k then Pending(At(s', t)) - Pending(At(s, t)) else 0
  {
    if k > 0 { PendingChange(s, s', t, k - 1); }
  }

  lemma {:induction false} PendingNone(s: State, k: nat)
    requires s.pc == map[]
    ensures PendingBelow(s, k) == 0
  {
    if k > 0 { PendingNone(s, k - 1); }
  }

  lemma ConservedStep(s: State, act: Act, k: nat)
    requires s.opt == s.over + s.head + PendingBelow(s, k)
    requires act.Begin? || act.Move? ==> act.t < k
    requires act.Move? && At(s, act.t).AddOver? ==> At(s, act.t).a >= 0
    ensures var s' := Next(0, s, act); s'.opt == s'.over + s'.head + PendingBelow(s', k)
  {
    PendingChange(s, Next(0, s, act), if act.Publish? then 0 else act.t, k);
  }

  /**
   Conservation, in the middle of any number of calls: the optimistic count is the elements
   claimed, those given back, and those the consumers inside are still working on.
   */
  lemma {:induction false} Conserved(acts: seq<Act>, k: nat, d: nat)
    requires Within(acts, k, d)
    ensures var s := Exec(0, acts); s.opt == s.over + s.head + PendingBelow(s, k)
  {
    if acts == [] {
      PendingNone(Start, k);
    } else {
      var n := |acts| - 1;
      Conserved(acts[..n], k, d);
      var s := Exec(0, acts[..n]);
      var a := ExecInv(acts[..n]);
      if acts[n].Move? { Know(s, a, acts[n].t); }
      hide Inv, TicketOk, Exec;
      ConservedStep(s, acts[n], k);
    }
  }

  // ---------- Wrapping counters ----------

  predicate InWindow(M: nat, x: int) { -(M / 2) <= x < M / 2 }

  /**
   What circular_less_than makes of any wrapped difference.  It answers the question about the
   exact one whenever that lies in the window; the first value on either side is misjudged.
   */
  lemma WindowExact(M: nat, x: int)
    requires M > 2 && M % 2 == 0
    ensures Less(M, 0, Word(M, x)) <==> 0 < x % M < M / 2
    ensures InWindow(M, x) ==> (Less(M, 0, Word(M, x)) <==> 0 < x) && (0 < x ==> Word(M, x) == x)
    ensures x == M / 2 || x == -(M / 2) - 1 ==> !(Less(M, 0, Word(M, x)) <==> 0 < x)
  {
    LessWord(M, x % M);
    ModSmall(x % M, M);
    if 0 <= x < M { ModSmall(x, M); } else if 0 <= x + M < M { ModIs(x, M, -1); }
  }

  lemma LessWord(M: nat, w: int)
    requires M > 0 && 0 <= w < M && M % 2 == 0
    ensures Less(M, 0, w) <==> 0 < w < M / 2
  {
    if w == 0 { ModSmall(0, M); } else { ModIs(-w, M, -1); }
  }

  /** The test of `dequeue` is the test of `dequeue_bulk`, which then asks for one element. */
  lemma SingleIsBulkOfOne(M: nat, count: int, tail: int)
    ensures Less(M, count, tail) <==> Less(M, 0, Word(M, tail - count))
    ensures Less(M, count, tail) ==> Min(Word(M, tail - count), 1) == 1
  {
    if M > 0 {
      ModSub(0, tail - count, M);
      ModSmall(0, M);
      assert (0 - (tail - count) % M) % M == (count - tail) % M;
      if (tail - count) % M == 0 { assert (0 - 0) % M == 0; }
    }
  }

  function WrapPc(M: nat, p: Pc): Pc
    requires M > 0
  {
    match p
    case Idle => Idle
    case LoadOver(tail, max) => LoadOver(tail % M, max)
    case LoadOpt(tail, v, max) => LoadOpt(tail % M, v % M, max)
    case AddOpt(v, d) => AddOpt(v % M, d)
    case LoadTail(v, m, d) => LoadTail(v % M, m % M, d)
    case AddOver(a, o) => AddOver(a, o)
    case AddHead(a) => AddHead(a)
  }

  /** The state as the machine words hold it. */
  function Wrap(M: nat, s: State): State
    requires M > 0
  {
    State(s.tail % M, s.head % M, s.opt % M, s.over % M,
          map t | t in s.pc :: WrapPc(M, s.pc[t]),
          seq(|s.claims|, i requires 0 <= i < |s.claims| => s.claims[i].(start := s.claims[i].start % M)))
  }

  /** The differences a step compares lie in the window. */
  predicate Window(M: nat, s: State, act: Act) {
    act.Move? ==>
      match At(s, act.t)
      case LoadOpt(tail, v, _) => InWindow(M, tail - (s.opt - v))
      case LoadTail(v, m, _) => InWindow(M, s.tail - (m - v))
      case _ => true
  }

  lemma WrapDiff(M: nat, x: int, y: int, z: int)
    requires M > 0
    ensures (x % M - (y % M - z % M)) % M == (x - (y - z)) % M
  {
    ModSub(y, z, M);
    ModSub(x, y - z, M);
    ModSub(x % M, y % M - z % M, M);
    ModSmall(x % M, M);
  }

  lemma MoveTransfers(M: nat, s: State, t: Tid)
    requires M > 2 && M % 2 == 0 && Window(M, s, Move(t))
    requires At(s, t).LoadOpt? || At(s, t).LoadTail?
    ensures Next(M, Wrap(M, s), Move(t)) == Wrap(M, Next(0, s, Move(t)))
  {
    var p := At(s, t);
    if p.LoadOpt? {
      WrapDiff(M, p.tail, s.opt, p.v);
      WindowExact(M, p.tail - (s.opt - p.v));
    } else {
      WrapDiff(M, s.tail, p.m, p.v);
      WindowExact(M, s.tail - (p.m - p.v));
    }
  }

  lemma StepTransfers(M: nat, s: State, act: Act)
    requires M > 2 && M % 2 == 0 && Window(M, s, act)
    ensures Next(M, Wrap(M, s), act) == Wrap(M, Next(0, s, act))
  {
    match act
    case Publish(k) => ModAdd(s.tail, k, M);
    case Begin(t, max) =>
    case Move(t) =>
      match At(s, t)
      case AddOpt(v, d) => ModAdd(s.opt, d, M);
      case AddOver(a, o) => ModAdd(s.over, o, M);
      case AddHead(a) => ModAdd(s.head, a, M);
      case Idle =>
      case LoadOver(_, _) =>
      case _ => MoveTransfers(M, s, t);
  }

  /**
   As long as every comparison has its exact difference in the window, words that wrap
   go through exactly the states that counters without a bound go through.
   */
  lemma {:induction false} WrappingTransfers(M: nat, acts: seq<Act>)
    requires M > 2 && M % 2 == 0
    requires forall i | 0 <= i < |acts| :: Window(M, Exec(0, acts[..i]), acts[i])
    ensures Exec(M, acts) == Wrap(M, Exec(0, acts))
  {
    if acts == [] {
      ModSmall(0, M);
    } else {
      var n := |acts| - 1;
      forall i | 0 <= i < n
        ensures Window(M, Exec(0, acts[..n][..i]), acts[..n][i]) { assert acts[..n][..i] == acts[..i]; }
      WrappingTransfers(M, acts[..n]);
      StepTransfers(M, Exec(0, acts[..n]), acts[n]);
    }
  }

  // ---------- When the window is kept ----------

  /** How long the schedule was when consumer t's current call began. */
  function Since(acts: seq<Act>, t: Tid): (n: nat)
    ensures n <= |acts|
  {
    if acts == [] then 0
    else
      var n := |acts| - 1;
      if acts[n].Begin? && acts[n].t == t && At(Exec(0, acts[..n]), t) == Idle then n else Since(acts[..n], t)
  }

  /**
   While a consumer's call goes on, what was queued at its beginning and what has been
   published since stay below half the word range, and so does what was pending at its
   beginning and has been asked for since.
   */
  ghost predicate Calm(M: nat, acts: seq<Act>) {
    forall i | 0 <= i < |acts| && acts[i].Move? && At(Exec(0, acts[..i]), acts[i].t) != Idle ::
      var s, b := Exec(0, acts[..i]), Exec(0, acts[..Since(acts[..i], acts[i].t)]);
      s.tail - b.head < M / 2 && s.opt - b.over - b.head <= M / 2
  }

  /** What a consumer has read lies between the state b its call began in and the current one. */
  ghost predicate Between(b: State, s: State, p: Pc) {
    && b.head <= b.tail <= s.tail && b.head <= s.head && b.over <= s.over && b.opt <= s.opt
    && s.head <= s.opt - s.over
    && match p
       case LoadOver(tail, _) => tail == b.tail
       case LoadOpt(tail, v, _) => tail == b.tail && b.over <= v <= s.over
       case AddOpt(v, _) => b.over <= v <= s.over
       case LoadTail(v, m, _) => b.over <= v && b.head <= m - v && m <= s.opt
       case _ => true
  }

  lemma Facts(acts: seq<Act>, t: Tid)
    ensures var s := Exec(0, acts); s.head <= s.tail && s.head <= s.opt - s.over
    ensures var s := Exec(0, acts);
      match At(s, t)
      case AddOpt(_, d) => d >= 0
      case LoadTail(_, _, d) => d >= 0
      case AddOver(_, o) => o >= 0
      case AddHead(a) => a >= 0
      case _ => true
  {
    HeadBehindTail(acts);
    var s := Exec(0, acts);
    var a := ExecInv(acts);
    forall i | 0 <= i < |a.q| ensures Sound(a.q[i]) { assert TicketOk(s, a.q, i); }
    Balance(a.q);
    Know(s, a, t);
  }

  lemma {:induction false} ReadBetween(acts: seq<Act>, t: Tid)
    requires At(Exec(0, acts), t) != Idle
    ensures Between(Exec(0, acts[..Since(acts, t)]), Exec(0, acts), At(Exec(0, acts), t))
  {
    if acts != [] {
      var n := |acts| - 1;
      var s := Exec(0, acts[..n]);
      Facts(acts, t);
      Facts(acts[..n], if acts[n].Publish? then 0 else acts[n].t);
      if At(s, t) != Idle {
        ReadBetween(acts[..n], t);
        assert acts[..n][..Since(acts[..n], t)] == acts[..Since(acts, t)];
      }
    }
  }

  lemma CalmWindow(M: nat, acts: seq<Act>, act: Act)
    requires M > 2 && M % 2 == 0
    requires act.Move? && At(Exec(0, acts), act.t) != Idle ==>
      var s, b := Exec(0, acts), Exec(0, acts[..Since(acts, act.t)]);
      s.tail - b.head < M / 2 && s.opt - b.over - b.head <= M / 2
    ensures Window(M, Exec(0, acts), act)
  {
    if act.Move? && At(Exec(0, acts), act.t) != Idle { ReadBetween(acts, act.t); }
  }

  /** Calm calls cannot tell words that wrap from counters without a bound. */
  lemma CalmTransfers(M: nat, acts: seq<Act>)
    requires M > 2 && M % 2 == 0 && Calm(M, acts)
    ensures Exec(M, acts) == Wrap(M, Exec(0, acts))
  {
    forall i | 0 <= i < |acts|
      ensures Window(M, Exec(0, acts[..i]), acts[i])
    {
      if acts[i].Move? { assert acts[..i][..Since(acts[..i], acts[i].t)] == acts[..Since(acts[..i], acts[i].t)]; }
      CalmWindow(M, acts[..i], acts[i]);
    }
    WrappingTransfers(M, acts);
  }

  predicate Small(p: Pc, d: nat) {
    match p
    case LoadOver(_, max) => max <= d
    case LoadOpt(_, _, max) => max <= d
    case AddOpt(_, x) => x <= d
    case LoadTail(_, _, x) => x <= d
    case AddOver(a, o) => a + o <= d
    case AddHead(a) => a <= d
    case Idle => true
  }

  lemma {:induction false} AsksSmall(acts: seq<Act>, k: nat, d: nat, t: Tid)
    requires Within(acts, k, d)
    ensures Small(At(Exec(0, acts), t), d)
  {
    if acts != [] {
      var n := |acts| - 1;
      AsksSmall(acts[..n], k, d, t);
      Facts(acts[..n], t);
    }
  }

  lemma {:induction false} PendingFew(acts: seq<Act>, k: nat, d: nat, j: nat)
    requires Within(acts, k, d)
    ensures PendingBelow(Exec(0, acts), j) <= j * d
  {
    if j > 0 {
      PendingFew(acts, k, d, j - 1);
      AsksSmall(acts, k, d, j - 1);
      assert j * d == (j - 1) * d + d;
    }
  }

  /** One step asks for at most d elements. */
  lemma {:induction false} AskedSince(acts: seq<Act>, k: nat, d: nat, n: nat)
    requires Within(acts, k, d) && n <= |acts|
    ensures Exec(0, acts).opt <= Exec(0, acts[..n]).opt + (|acts| - n) * d
  {
    if n == |acts| {
      assert acts[..n] == acts;
    } else {
      var m := |acts| - 1;
      AskedSince(acts[..m], k, d, n);
      assert acts[..m][..n] == acts[..n];
      AsksSmall(acts[..m], k, d, if acts[m].Publish? then 0 else acts[m].t);
      assert (|acts| - n) * d == (m - n) * d + d;
    }
  }

  /**
   The same from what can be counted outside: k consumers that ask for at most d elements at a
   time, no call interrupted by more than n steps, and never half the word range of elements
   from the head when a call began to the tail while it goes on.
   */
  lemma CountedTransfers(M: nat, acts: seq<Act>, k: nat, d: nat, n: nat)
    requires M > 2 && M % 2 == 0 && Within(acts, k, d) && (n + k) * d <= M / 2
    requires forall i | 0 <= i < |acts| && acts[i].Move? && At(Exec(0, acts[..i]), acts[i].t) != Idle ::
      var since := Since(acts[..i], acts[i].t);
      i - since <= n && Exec(0, acts[..i]).tail - Exec(0, acts[..since]).head < M / 2
    ensures Exec(M, acts) == Wrap(M, Exec(0, acts))
  {
    forall i | 0 <= i < |acts| && acts[i].Move? && At(Exec(0, acts[..i]), acts[i].t) != Idle
      ensures var s, b := Exec(0, acts[..i]), Exec(0, acts[..Since(acts[..i], acts[i].t)]);
        s.tail - b.head < M / 2 && s.opt - b.over - b.head <= M / 2
    {
      var since := Since(acts[..i], acts[i].t);
      assert acts[..i][..since] == acts[..since];
      AskedSince(acts[..i], k, d, since);
      Conserved(acts[..since], k, d);
      PendingFew(acts[..since], k, d, k);
      MulMono(i - since, n, d);
      assert (n + k) * d == n * d + k * d;
    }
    CalmTransfers(M, acts);
  }

  // ---------- What the words say ----------

  /** The number of elements queued, read off the words. */
  lemma WrappedLength(M: nat, acts: seq<Act>)
    requires M > 2 && M % 2 == 0 && Calm(M, acts) && Exec(0, acts).tail - Exec(0, acts).head < M
    ensures (Exec(M, acts).tail - Exec(M, acts).head) % M == Exec(0, acts).tail - Exec(0, acts).head
  {
    var s := Exec(0, acts);
    CalmTransfers(M, acts);
    HeadBehindTail(acts);
    ModSub(s.tail, s.head, M);
    ModSmall(s.tail - s.head, M);
  }

  /** With nobody inside, the words of the three counters agree as the counters do. */
  lemma WrappedQuiet(M: nat, acts: seq<Act>)
    requires M > 2 && M % 2 == 0 && Calm(M, acts) && forall t :: At(Exec(M, acts), t) == Idle
    ensures (Exec(M, acts).opt - Exec(M, acts).over) % M == Exec(M, acts).head
  {
    var s := Exec(0, acts);
    CalmTransfers(M, acts);
    forall t ensures At(s, t) == Idle { assert At(Exec(M, acts), t) == Idle; }
    QuietExact(acts);
    ModSub(s.opt, s.over, M);
  }

  /** Two claims give out the same word only for elements a full turn apart. */
  lemma WrappedClaims(M: nat, acts: seq<Act>, k: nat, l: nat, u: nat, v: nat)
    requires M > 2 && M % 2 == 0 && Calm(M, acts) && k < l < |Exec(0, acts).claims|
    requires u < Exec(0, acts).claims[k].count && v < Exec(0, acts).claims[l].count
    ensures |Exec(M, acts).claims| == |Exec(0, acts).claims|
    ensures var x, y := Exec(M, acts).claims[k], Exec(M, acts).claims[l];
      var i, j := Exec(0, acts).claims[k].start + u, Exec(0, acts).claims[l].start + v;
      && x.count == Exec(0, acts).claims[k].count && y.count == Exec(0, acts).claims[l].count
      && i < j && (j - i < M ==> (x.start + u) % M != (y.start + v) % M)
  {
    hide Calm, Exec, Wrap, Contiguous;
    CalmTransfers(M, acts);
    ClaimsContiguous(acts);
    WrapClaim(M, Exec(0, acts), k);
    WrapClaim(M, Exec(0, acts), l);
    WordsDiffer(M, Exec(0, acts).claims, Exec(0, acts).head, k, l, u, v);
  }

  lemma WrapClaim(M: nat, s: State, k: nat)
    requires M > 0 && k < |s.claims|
    ensures |Wrap(M, s).claims| == |s.claims|
    ensures Wrap(M, s).claims[k] == s.claims[k].(start := s.claims[k].start % M)
  {
  }

  lemma WordsDiffer(M: nat, c: seq<Claim>, head: int, k: nat, l: nat, u: nat, v: nat)
    requires M > 0 && Contiguous(c, head) && k < l < |c| && u < c[k].count && v < c[l].count
    ensures var i, j := c[k].start + u, c[l].start + v;
      i < j && (j - i < M ==> (c[k].start % M + u) % M != (c[l].start % M + v) % M)
  {
    var i, j := c[k].start + u, c[l].start + v;
    assert c[k].start + c[k].count <= c[l].start;
    hide Contiguous;
    ModAdd(c[k].start, u, M);
    ModAdd(c[l].start, v, M);
    if j - i < M {
      ModSub(j, i, M);
      ModSmall(j - i, M);
      ModSmall(0, M);
    }
  }
}
