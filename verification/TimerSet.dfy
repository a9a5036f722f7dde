/**
 The timer set: a binary heap of timers ordered by time, whose callbacks may add further timers.
 The timestamps that a callback's timers get, from a clock that may be set back, are part of
 the callback.
 */
module TimerSet {
  import opened Wrappers
  import opened Bags

  /** What a callback adds when it runs, and what it is from then on. */
  datatype Callback = Idle | Runs(adds: seq<Timer>, next: Callback)

  datatype Timer = Timer(id: nat, ts: nat, cb: Callback)

  function Adds(t: Timer): seq<Timer> { if t.cb.Idle? then [] else t.cb.adds }

  /** The timer when its callback has run once more. */
  function Spent(t: Timer): Timer { if t.cb.Idle? then t else t.(cb := t.cb.next) }

  /** What the callback adds is not due before the timer itself. */
  ghost predicate Calm(t: Timer) { forall x | x in Adds(t) :: x.ts >= t.ts }

  /** The same for everything that comes due by now on account of t. */
  ghost predicate Prompt(t: Timer, now: nat) {
    t.ts <= now ==> forall i | 0 <= i < |Adds(t)| :: Adds(t)[i].ts >= t.ts && Prompt(Adds(t)[i], now)
  }

  ghost predicate AllPrompt(q: seq<Timer>, now: nat) { forall t | t in q :: Prompt(t, now) }

  /** Whatever comes due by now adds nothing that is due before now: the clock does not read less than now. */
  ghost predicate Ahead(t: Timer, now: nat) {
    t.ts <= now ==> forall i | 0 <= i < |Adds(t)| :: Adds(t)[i].ts >= now && Ahead(Adds(t)[i], now)
  }

  lemma {:induction false} AheadIsPrompt(t: Timer, now: nat)
    requires Ahead(t, now)
    ensures Prompt(t, now)
  {
    if t.ts <= now {
      forall i | 0 <= i < |Adds(t)|
        ensures Prompt(Adds(t)[i], now)
      {
        AheadIsPrompt(Adds(t)[i], now);
      }
    }
  }

  predicate Child(i: int, j: int) { j == 2 * i + 1 || j == 2 * i + 2 }

  ghost predicate Heap(q: seq<Timer>) { forall i, j | 0 <= i < j < |q| && Child(i, j) :: q[i].ts <= q[j].ts }

  lemma {:induction false} RootIsLeast(q: seq<Timer>, i: nat)
    requires Heap(q) && i < |q|
    ensures q[0].ts <= q[i].ts
  {
    if i > 0 {
      RootIsLeast(q, (i - 1) / 2);
      assert Child((i - 1) / 2, i);
    }
  }

  function Swap(q: seq<Timer>, i: nat, j: nat): (r: seq<Timer>)
    requires i < |q| && j < |q|
    ensures |r| == |q| && multiset(r) == multiset(q)
  {
    q[i := q[j]][j := q[i]]
  }

  /** In order but for the timer at i, which may be due before its parent. */
  ghost predicate Rising(q: seq<Timer>, i: nat) {
    && (forall a, b | 0 <= a < b < |q| && Child(a, b) && b != i :: q[a].ts <= q[b].ts)
    && (forall a, b | 0 <= a < i < b < |q| && Child(a, i) && Child(i, b) :: q[a].ts <= q[b].ts)
  }

  /** In order but for the timer at i, which may be due after its children. */
  ghost predicate Sinking(q: seq<Timer>, i: nat) {
    && (forall a, b | 0 <= a < b < |q| && Child(a, b) && a != i :: q[a].ts <= q[b].ts)
    && (forall a, b | 0 <= a < i < b < |q| && Child(a, i) && Child(i, b) :: q[a].ts <= q[b].ts)
  }

  lemma Rises(q: seq<Timer>, a: nat, i: nat)
    requires i < |q| && Child(a, i) && Rising(q, i) && q[i].ts < q[a].ts
    ensures Rising(Swap(q, i, a), a)
  {
  }

  lemma Sinks(q: seq<Timer>, i: nat, b: nat)
    requires b < |q| && Child(i, b) && Sinking(q, i) && q[b].ts < q[i].ts
    requires forall c | 0 <= c < |q| && Child(i, c) :: q[b].ts <= q[c].ts
    ensures Sinking(Swap(q, i, b), b)
  {
  }

  /** Everything that comes due by now: a timer, and what its callback adds. */
  ghost function Due(q: seq<Timer>, now: nat): multiset<Timer> {
    if q == [] then multiset{} else DueOne(q[0], now) + Due(q[1..], now)
  }

  ghost function DueOne(t: Timer, now: nat): multiset<Timer> {
    if t.ts > now then multiset{} else if t.cb.Idle? then multiset{t} else multiset{t} + Due(t.cb.adds, now)
  }

  /** Everything that is left for later. */
  ghost function Later(q: seq<Timer>, now: nat): multiset<Timer> {
    if q == [] then multiset{} else LaterOne(q[0], now) + Later(q[1..], now)
  }

  ghost function LaterOne(t: Timer, now: nat): multiset<Timer> {
    if t.ts > now then multiset{t} else if t.cb.Idle? then multiset{} else Later(t.cb.adds, now)
  }

  /** A timer as the outside knows it. */
  type Tag = (nat, nat)

  ghost function Tags(q: seq<Timer>): multiset<Tag> {
    if q == [] then multiset{} else multiset{(q[0].id, q[0].ts)} + Tags(q[1..])
  }

  /** The timers and all that their callbacks can ever add. */
  ghost function Size(q: seq<Timer>): nat { if q == [] then 0 else SizeOne(q[0]) + Size(q[1..]) }

  ghost function SizeOne(t: Timer): nat { 1 + Future(t.cb) }

  ghost function Future(c: Callback): nat { if c.Idle? then 0 else Size(c.adds) + Future(c.next) }

  lemma Single(t: Timer, now: nat)
    ensures t.ts <= now ==> Due([t], now) == multiset{t} + Due(Adds(t), now) && Later([t], now) == Later(Adds(t), now)
    ensures Tags([t]) == multiset{(t.id, t.ts)} == Tags([Spent(t)])
  {
    assert [t][1..] == [] && [Spent(t)][1..] == [];
  }

  lemma SingleSize(t: Timer)
    ensures Size([t]) >= 1 + Size(Adds(t))
    ensures !t.cb.Idle? ==> Size([t]) == Size([Spent(t)]) + Size(Adds(t))
  {
    assert Size([t]) == SizeOne(t) && Size([Spent(t)]) == SizeOne(Spent(t)) && Size([]) == 0;
    if !t.cb.Idle? { assert Future(t.cb) == Size(t.cb.adds) + Future(t.cb.next); }
  }

  lemma {:induction false} Concat(p: seq<Timer>, q: seq<Timer>, now: nat)
    ensures Due(p + q, now) == Due(p, now) + Due(q, now) && Later(p + q, now) == Later(p, now) + Later(q, now)
    ensures Tags(p + q) == Tags(p) + Tags(q) && Size(p + q) == Size(p) + Size(q)
    decreases |p|
  {
    hide DueOne, LaterOne, SizeOne;
    if p == [] {
      assert p + q == q;
    } else {
      assert (p + q)[1..] == p[1..] + q;
      Concat(p[1..], q, now);
      Associate(DueOne(p[0], now), Due(p[1..], now), Due(q, now));
      Associate(LaterOne(p[0], now), Later(p[1..], now), Later(q, now));
      Associate(multiset{(p[0].id, p[0].ts)}, Tags(p[1..]), Tags(q));
    }
  }

  function Without(q: seq<Timer>, i: nat): seq<Timer>
    requires i < |q|
  {
    q[..i] + q[i + 1..]
  }

  lemma SplitBag(q: seq<Timer>, i: nat)
    requires i < |q|
    ensures multiset(q) == multiset(Without(q, i)) + multiset{q[i]}
  {
    assert q == q[..i] + [q[i]] + q[i + 1..];
  }

  lemma Split(q: seq<Timer>, i: nat, now: nat)
    requires i < |q|
    ensures Due(q, now) == Due([q[i]], now) + Due(Without(q, i), now)
    ensures Later(q, now) == Later([q[i]], now) + Later(Without(q, i), now)
    ensures Tags(q) == Tags([q[i]]) + Tags(Without(q, i)) && Size(q) == Size([q[i]]) + Size(Without(q, i))
  {
    hide Due, Later, Tags, Size;
    assert q == q[..i] + ([q[i]] + q[i + 1..]);
    Concat(q[..i], [q[i]] + q[i + 1..], now);
    Concat([q[i]], q[i + 1..], now);
    Concat(q[..i], q[i + 1..], now);
  }

  lemma Find(q: seq<Timer>, t: Timer) returns (i: nat)
    requires t in multiset(q)
    ensures i < |q| && q[i] == t
  {
    assert t in q;
    i :| 0 <= i < |q| && q[i] == t;
  }

  /** The order of the timers does not matter. */
  lemma {:induction false} Permuted(p: seq<Timer>, q: seq<Timer>, now: nat)
    requires multiset(p) == multiset(q)
    ensures Due(p, now) == Due(q, now) && Later(p, now) == Later(q, now) && Tags(p) == Tags(q) && Size(p) == Size(q)
    decreases |p|
  {
    hide Due, Later, Tags, Size;
    if p == [] {
      assert |multiset(q)| == |multiset(p)|;
      assert q == [];
    } else {
      SplitBag(p, 0);
      var i := Find(q, p[0]);
      SplitBag(q, i);
      Cancel(multiset{p[0]}, multiset(Without(p, 0)), multiset(Without(q, i)));
      Permuted(Without(p, 0), Without(q, i), now);
      Split(p, 0, now);
      Split(q, i, now);
    }
  }

  lemma {:induction false} NoneDue(q: seq<Timer>, now: nat)
    requires forall t | t in q :: t.ts > now
    ensures Due(q, now) == multiset{} && Later(q, now) == multiset(q)
  {
    if q != [] {
      NoneDue(q[1..], now);
      assert q == [q[0]] + q[1..];
    }
  }

  lemma Risen(q: seq<Timer>, i: nat)
    requires i < |q| && Rising(q, i) && (i > 0 ==> q[(i - 1) / 2].ts <= q[i].ts)
    ensures Heap(q)
  {
    forall a, b | 0 <= a < b < |q| && Child(a, b)
      ensures q[a].ts <= q[b].ts
    {
      if b == i { assert a == (i - 1) / 2; }
    }
  }

  lemma OneMore(q: seq<Timer>, i: nat)
    requires i < |q|
    ensures multiset(q[..i + 1]) == multiset(q[..i]) + multiset{q[i]}
  {
    assert q[..i + 1] == q[..i] + [q[i]];
  }

  lemma Popped(q: seq<Timer>)
    requires Heap(q) && q != []
    ensures var n := |q| - 1;
            if n == 0 then multiset(q[..n]) == multiset(q) - multiset{q[0]}
            else Sinking(q[..n][0 := q[n]], 0) && multiset(q[..n][0 := q[n]]) == multiset(q) - multiset{q[0]}
  {
    var n := |q| - 1;
    if n == 0 {
      assert q == [q[0]];
    } else {
      var r := q[..n][0 := q[n]];
      PoppedBag(q, r);
      assert forall i | 1 <= i < n :: r[i] == q[i];
    }
  }

  lemma PoppedBag(q: seq<Timer>, r: seq<Timer>)
    requires |q| >= 2 && r == q[..|q| - 1][0 := q[|q| - 1]]
    ensures multiset(r) == multiset(q) - multiset{q[0]}
  {
    var x, mid, y := q[0], q[1..|q| - 1], q[|q| - 1];
    assert q == [x] + mid + [y] && r == [y] + mid;
    Replaced(multiset{x}, multiset(mid), multiset{y});
  }

  lemma Replaced(a: multiset<Timer>, b: multiset<Timer>, c: multiset<Timer>)
    ensures (a + b + c) - a == c + b && (a + b) - a + c == c + b
  {
  }

  lemma Sunk(q: seq<Timer>, i: nat)
    requires i < |q| && Sinking(q, i) && forall b | 0 <= b < |q| && Child(i, b) :: q[i].ts <= q[b].ts
    ensures Heap(q)
  {
  }

  // ---------------------------------------------------------------- one firing

  /** q' is what is left of q when its first timer has fired and `pop` was called. */
  ghost predicate Fired(q: seq<Timer>, q': seq<Timer>)
    requires q != []
  {
    if Calm(q[0]) then multiset(q' + [q[0]]) == multiset(q + Adds(q[0])) else exists x :: Overtaken(q, q', x)
  }

  /** The timer that fired is still there, and x, the earliest of those it added, is lost. */
  ghost predicate Overtaken(q: seq<Timer>, q': seq<Timer>, x: Timer)
    requires q != []
  {
    && x in Adds(q[0]) && x.ts < q[0].ts && (forall y | y in Adds(q[0]) :: x.ts <= y.ts)
    && multiset(q' + [q[0], x]) == multiset(q + [Spent(q[0])] + Adds(q[0]))
  }

  /** The callback of the first timer is used up. */
  ghost predicate UsedUp(q: seq<Timer>, q': seq<Timer>)
    requires q != []
  {
    q' != [] && q'[0] == Spent(q[0]) && multiset(q') + multiset{q[0]} == multiset(q) + multiset{Spent(q[0])}
  }

  /** What is first when t's callback has run: t itself, or the earliest of what it added. */
  ghost predicate First(t: Timer, x: Timer) {
    if Calm(t) then x == Spent(t) else x in Adds(t) && x.ts < t.ts && forall y | y in Adds(t) :: x.ts <= y.ts
  }

  function UseUp(q: seq<Timer>): seq<Timer>
    requires q != []
  {
    q[0 := Spent(q[0])]
  }

  lemma SpentHeap(q: seq<Timer>)
    requires Heap(q) && q != []
    ensures Heap(UseUp(q)) && UseUp(q) != [] && UsedUp(q, UseUp(q))
  {
    var rest := q[1..];
    assert q == [q[0]] + rest && UseUp(q) == [Spent(q[0])] + rest;
  }

  lemma RootAfter(q: seq<Timer>, base: seq<Timer>, full: seq<Timer>)
    requires q != [] && UsedUp(q, base) && Heap(base) && Heap(full) && full != []
    requires multiset(full) == multiset(base) + multiset(Adds(q[0]))
    requires (forall j | 0 <= j < |Adds(q[0])| :: Adds(q[0])[j].ts >= base[0].ts) ==> full[0] == base[0]
    ensures First(q[0], full[0])
  {
    var t := q[0];
    forall y | y in Adds(t)
      ensures full[0].ts <= y.ts
    {
      assert y in multiset(Adds(t)) && y in multiset(full);
      var i := Find(full, y);
      RootIsLeast(full, i);
    }
    if !Calm(t) {
      var y :| y in Adds(t) && y.ts < t.ts;
      assert full[0] in multiset(full) && (full[0] in multiset(base) || full[0] in multiset(Adds(t)));
      if full[0] in multiset(base) {
        var i := Find(base, full[0]);
        RootIsLeast(base, i);
      }
    }
  }

  lemma FiredNow(q: seq<Timer>, base: seq<Timer>, full: seq<Timer>, q': seq<Timer>)
    requires q != [] && full != [] && UsedUp(q, base) && First(q[0], full[0])
    requires multiset(full) == multiset(base) + multiset(Adds(q[0])) &&
      multiset(q') == multiset(full) - multiset{full[0]}
    ensures Fired(q, q')
    ensures multiset(q') == multiset(q) - multiset{q[0]} + multiset(Adds(q[0])) <==> Calm(q[0])
  {
    var t, x, a := q[0], full[0], multiset(Adds(q[0]));
    assert x in multiset(full) && t in multiset(q);
    assert multiset(q') + multiset{x} == multiset(full);
    Sums(multiset(q), t, Spent(t), multiset(base), a, x, multiset(q'));
    SumsEqual(multiset(q), t, Spent(t), a, x, multiset(q'));
    Moved(multiset(q), t, a, multiset(q'));
    if Calm(t) {
      assert multiset(q' + [t]) == multiset(q') + multiset{t} && multiset(q + Adds(t)) == multiset(q) + a;
    } else {
      assert q' + [t, x] == q' + [t] + [x];
      assert multiset(q + [Spent(t)] + Adds(t)) == multiset(q) + multiset{Spent(t)} + a;
      assert Overtaken(q, q', x);
    }
  }

  lemma Sums(q: multiset<Timer>, t: Timer, spent: Timer, base: multiset<Timer>, a: multiset<Timer>,
             x: Timer, q': multiset<Timer>)
    requires base + multiset{t} == q + multiset{spent} && q' + multiset{x} == base + a
    ensures q' + multiset{t} + multiset{x} == q + multiset{spent} + a
  {
    forall k
      ensures (q' + multiset{t} + multiset{x})[k] == (q + multiset{spent} + a)[k]
    {
      assert (base + multiset{t})[k] == (q + multiset{spent})[k];
      assert (q' + multiset{x})[k] == (base + a)[k];
    }
  }

  lemma SumsEqual(q: multiset<Timer>, t: Timer, spent: Timer, a: multiset<Timer>, x: Timer, q': multiset<Timer>)
    requires q' + multiset{t} + multiset{x} == q + multiset{spent} + a
    ensures q' + multiset{t} == q + a <==> x == spent
  {
    if x == spent {
      Commute(q, multiset{x}, a);
      Cancel(multiset{x}, q' + multiset{t}, q + a);
    } else {
      assert (q' + multiset{t} + multiset{x})[x] == (q + multiset{spent} + a)[x];
      assert (q' + multiset{t})[x] + 1 == (q + a)[x];
    }
  }

  lemma Moved(q: multiset<Timer>, t: Timer, a: multiset<Timer>, q': multiset<Timer>)
    requires t in q
    ensures q' == q - multiset{t} + a <==> q' + multiset{t} == q + a
  {
    var r := q - multiset{t};
    assert q == r + multiset{t};
    Commute(r, multiset{t}, a);
    if q' + multiset{t} == q + a { Cancel(multiset{t}, q', r + a); }
  }

  lemma Smaller(q: seq<Timer>, q': seq<Timer>)
    requires q != [] && Fired(q, q')
    ensures Size(q') < Size(q)
  {
    hide Due, Later, Tags, Size;
    var t := q[0];
    SingleSize(t);
    if Calm(t) {
      Permuted(q' + [t], q + Adds(t), 0);
      Concat(q', [t], 0);
      Concat(q, Adds(t), 0);
    } else {
      var x :| Overtaken(q, q', x);
      OvertakenSums(q, q', x);
      SingleSize(x);
    }
  }

  lemma OvertakenSums(q: seq<Timer>, q': seq<Timer>, x: Timer)
    requires q != [] && Overtaken(q, q', x)
    ensures Size(q') + Size([q[0]]) + Size([x]) == Size(q) + Size([Spent(q[0])]) + Size(Adds(q[0]))
    ensures Tags(q') + Tags([q[0]]) + Tags([x]) == Tags(q) + Tags([Spent(q[0])]) + Tags(Adds(q[0]))
  {
    hide Due, Later, Tags, Size;
    var t := q[0];
    assert q' + [t, x] == q' + [t] + [x];
    Permuted(q' + [t] + [x], q + [Spent(t)] + Adds(t), 0);
    Concat(q' + [t], [x], 0);
    Concat(q', [t], 0);
    Concat(q + [Spent(t)], Adds(t), 0);
    Concat(q, [Spent(t)], 0);
  }

  // ---------------------------------------------------------------- a run of firings

  /** Every timer that was there or was added has fired, once, or is left. */
  ghost predicate Kept(q0: seq<Timer>, q: seq<Timer>, fired: seq<Timer>, added: seq<Timer>) {
    Tags(q0) + Tags(added) == Tags(fired) + Tags(q)
  }

  /**
   Whether every firing was calm so far; if not, timers fired once too often and timers lost, and
   the last of the former.
   */
  datatype Books = Books(calm: bool, extra: multiset<Tag>, lost: multiset<Tag>, top: Tag)

  ghost predicate Balance(q0: seq<Timer>, q: seq<Timer>, fired: seq<Timer>, added: seq<Timer>, b: Books) {
    && Tags(q0) + Tags(added) + b.extra == Tags(fired) + Tags(q) + b.lost
    && (b.calm ==> b.extra == b.lost == multiset{})
    && (!b.calm ==> b.top in b.extra && forall y | y in b.lost :: y.1 < b.top.1)
  }

  ghost predicate InOrder(fired: seq<Timer>) { forall i, j | 0 <= i < j < |fired| :: fired[i].ts <= fired[j].ts }

  /** Fired so far is what came due so far, in order of time. */
  ghost predicate Ordered(q0: seq<Timer>, q: seq<Timer>, fired: seq<Timer>, now: nat) {
    && multiset(fired) + Due(q, now) == Due(q0, now) && Later(q, now) == Later(q0, now)
    && InOrder(fired) && forall i, t | 0 <= i < |fired| && t in q :: fired[i].ts <= t.ts
  }

  lemma BalanceStart(q: seq<Timer>, fired: seq<Timer>, added: seq<Timer>, now: nat)
    ensures fired[|fired|..] == [] == added[|added|..]
    ensures Balance(q, q, [], [], Books(true, multiset{}, multiset{}, (0, 0))) && Ordered(q, q, [], now)
  {
  }

  lemma Settle(q0: seq<Timer>, q: seq<Timer>, q': seq<Timer>, f: seq<Timer>, a: seq<Timer>, b: Books, now: nat)
    returns (b': Books)
    requires Heap(q) && q != [] && q[0].ts <= now && Fired(q, q') && Balance(q0, q, f, a, b)
    requires b.calm ==> Ordered(q0, q, f, now)
    ensures Balance(q0, q', f + [q[0]], a + Adds(q[0]), b')
    ensures b'.calm ==> Ordered(q0, q', f + [q[0]], now)
    ensures b.calm && AllPrompt(q, now) <==> b'.calm && AllPrompt(q', now)
  {
    hide Due, Later, Tags, Heap, AllPrompt, Balance, Ordered;
    var t := q[0];
    if Calm(t) {
      b' := b;
      BalanceCalm(q0, q, q', f, a, b);
      if b.calm { OrderedCalm(q0, q, q', f, now); }
      PromptCalm(q, q', now);
    } else {
      b' := BalanceOvertaken(q0, q, q', f, a, b);
      NotPrompt(q, now);
    }
  }

  lemma BalanceCalm(q0: seq<Timer>, q: seq<Timer>, q': seq<Timer>, f: seq<Timer>, a: seq<Timer>, b: Books)
    requires q != [] && Fired(q, q') && Calm(q[0]) && Balance(q0, q, f, a, b)
    ensures Balance(q0, q', f + [q[0]], a + Adds(q[0]), b)
  {
    hide Due, Later, Tags, Size;
    var t := q[0];
    Permuted(q' + [t], q + Adds(t), 0);
    Concat(q', [t], 0);
    Concat(q, Adds(t), 0);
    Concat(f, [t], 0);
    Concat(a, Adds(t), 0);
    CalmSums(Tags(q0), Tags(a), b.extra, Tags(f), Tags(q), b.lost, Tags([t]), Tags(Adds(t)), Tags(q'));
  }

  lemma CalmSums(q0: multiset<Tag>, a: multiset<Tag>, extra: multiset<Tag>, f: multiset<Tag>, q: multiset<Tag>,
                 lost: multiset<Tag>, t: multiset<Tag>, adds: multiset<Tag>, q': multiset<Tag>)
    requires q0 + a + extra == f + q + lost && q' + t == q + adds
    ensures q0 + (a + adds) + extra == (f + t) + q' + lost
  {
    forall k
      ensures (q0 + (a + adds) + extra)[k] == ((f + t) + q' + lost)[k]
    {
      assert (q0 + a + extra)[k] == (f + q + lost)[k] && (q' + t)[k] == (q + adds)[k];
    }
  }

  lemma BalanceOvertaken(q0: seq<Timer>, q: seq<Timer>, q': seq<Timer>, f: seq<Timer>, a: seq<Timer>, b: Books)
    returns (b': Books)
    requires q != [] && Fired(q, q') && !Calm(q[0]) && Balance(q0, q, f, a, b)
    ensures Balance(q0, q', f + [q[0]], a + Adds(q[0]), b') && !b'.calm
  {
    hide Due, Later, Tags, Size;
    var t := q[0];
    var x :| Overtaken(q, q', x);
    var u, v := (t.id, t.ts), (x.id, x.ts);
    b' := Books(false, b.extra + multiset{u}, b.lost + multiset{v}, if b.calm || b.top.1 < t.ts then u else b.top);
    OvertakenSums(q, q', x);
    Single(t, 0);
    Single(x, 0);
    Concat(f, [t], 0);
    Concat(a, Adds(t), 0);
    OvertakenTags(Tags(q0), Tags(a), b, Tags(f), Tags(q), u, v, Tags(Adds(t)), Tags(q'));
  }

  lemma OvertakenTags(q0: multiset<Tag>, a: multiset<Tag>, b: Books, f: multiset<Tag>, q: multiset<Tag>, u: Tag, v: Tag,
                      adds: multiset<Tag>, q': multiset<Tag>)
    requires q0 + a + b.extra == f + q + b.lost && q' + multiset{u} + multiset{v} == q + multiset{u} + adds
    ensures q0 + (a + adds) + (b.extra + multiset{u}) == (f + multiset{u}) + q' + (b.lost + multiset{v})
  {
    forall k
      ensures (q0 + (a + adds) + (b.extra + multiset{u}))[k] == ((f + multiset{u}) + q' + (b.lost + multiset{v}))[k]
    {
      assert (q0 + a + b.extra)[k] == (f + q + b.lost)[k];
      assert (q' + multiset{u} + multiset{v})[k] == (q + multiset{u} + adds)[k];
    }
  }

  lemma OrderedCalm(q0: seq<Timer>, q: seq<Timer>, q': seq<Timer>, f: seq<Timer>, now: nat)
    requires Heap(q) && q != [] && q[0].ts <= now && Fired(q, q') && Calm(q[0]) && Ordered(q0, q, f, now)
    ensures Ordered(q0, q', f + [q[0]], now)
  {
    hide Due, Later, Heap, Fired, Calm;
    Fires(q, q', now);
    FiresLater(q, q');
    OrderedMore(f, q, q');
    Associate(multiset(f), multiset{q[0]}, Due(q', now));
    assert multiset(f + [q[0]]) == multiset(f) + multiset{q[0]};
  }

  lemma OrderedMore(f: seq<Timer>, q: seq<Timer>, q': seq<Timer>)
    requires q != [] && InOrder(f) && (forall i, t | 0 <= i < |f| && t in q :: f[i].ts <= t.ts)
    requires forall x | x in q' :: q[0].ts <= x.ts
    ensures InOrder(f + [q[0]]) && forall i, t | 0 <= i < |f + [q[0]]| && t in q' :: (f + [q[0]])[i].ts <= t.ts
  {
    var t, f' := q[0], f + [q[0]];
    assert t in q;
    forall i | 0 <= i < |f'|
      ensures f'[i].ts <= t.ts
    {
    }
  }

  /** Firing the root q[0]: what comes due is the root and what came due without it. */
  lemma Fires(q: seq<Timer>, q': seq<Timer>, now: nat)
    requires q != [] && q[0].ts <= now && Fired(q, q') && Calm(q[0])
    ensures Due(q, now) == multiset{q[0]} + Due(q', now) && Later(q', now) == Later(q, now)
  {
    hide Due, Later, Tags, Size;
    var t := q[0];
    Permuted(q' + [t], q + Adds(t), now);
    Concat(q', [t], now);
    Concat(q, Adds(t), now);
    Single(t, now);
    FiresSums(Due(q', now), multiset{t}, Due(Adds(t), now), Due(q, now));
    FiresSums(Later(q', now), multiset{}, Later(Adds(t), now), Later(q, now));
  }

  lemma FiresSums(q': multiset<Timer>, t: multiset<Timer>, a: multiset<Timer>, q: multiset<Timer>)
    requires q' + (t + a) == q + a
    ensures q == t + q'
  {
    forall k
      ensures q[k] == (t + q')[k]
    {
      assert (q' + (t + a))[k] == (q + a)[k];
    }
  }

  lemma FiresLater(q: seq<Timer>, q': seq<Timer>)
    requires Heap(q) && q != [] && Fired(q, q') && Calm(q[0])
    ensures forall x | x in q' :: q[0].ts <= x.ts
  {
    forall x | x in q'
      ensures q[0].ts <= x.ts
    {
      Comes(q, q', x);
      if x !in Adds(q[0]) {
        var i :| 0 <= i < |q| && q[i] == x;
        RootIsLeast(q, i);
      }
    }
  }

  lemma Comes(q: seq<Timer>, q': seq<Timer>, x: Timer)
    requires q != [] && Fired(q, q') && Calm(q[0]) && x in q'
    ensures x in q || x in Adds(q[0])
  {
    assert x in q' + [q[0]] && x in multiset(q' + [q[0]]);
    assert x in multiset(q + Adds(q[0]));
    assert x in q + Adds(q[0]);
  }

  lemma Goes(q: seq<Timer>, q': seq<Timer>, x: Timer)
    requires q != [] && Fired(q, q') && Calm(q[0]) && (x in q || x in Adds(q[0]))
    ensures x in q' || x == q[0]
  {
    assert x in q + Adds(q[0]) && x in multiset(q + Adds(q[0]));
    assert x in multiset(q' + [q[0]]);
    assert x in q' + [q[0]];
  }

  lemma PromptCalm(q: seq<Timer>, q': seq<Timer>, now: nat)
    requires q != [] && q[0].ts <= now && Fired(q, q') && Calm(q[0])
    ensures AllPrompt(q, now) <==> AllPrompt(q', now)
  {
    var t := q[0];
    if AllPrompt(q, now) {
      assert Prompt(t, now);
      forall x | x in q'
        ensures Prompt(x, now)
      {
        Comes(q, q', x);
      }
    }
    if AllPrompt(q', now) {
      forall x | x in q || x in Adds(t)
        ensures x != t ==> Prompt(x, now)
      {
        Goes(q, q', x);
      }
      forall i | 0 <= i < |Adds(t)|
        ensures Prompt(Adds(t)[i], now)
      {
        AddsSmaller(t, i);
      }
    }
  }

  /** A timer does not add itself. */
  lemma AddsSmaller(t: Timer, i: nat)
    requires i < |Adds(t)|
    ensures Adds(t)[i] != t
  {
    assert t.cb.adds[i] < t;
  }

  lemma NotPrompt(q: seq<Timer>, now: nat)
    requires q != [] && q[0].ts <= now && !Calm(q[0])
    ensures !AllPrompt(q, now)
  {
    var x :| x in Adds(q[0]) && x.ts < q[0].ts;
    var i :| 0 <= i < |Adds(q[0])| && Adds(q[0])[i] == x;
    assert !Prompt(q[0], now);
  }

  lemma Same(a: multiset<Tag>, b: multiset<Tag>, c: multiset<Tag>)
    requires a + b == a + c
    ensures b == c
  {
    assert a + b == b + a && a + c == c + a;
    Cancel(a, b, c);
  }

  lemma Settled(q0: seq<Timer>, q: seq<Timer>, f: seq<Timer>, a: seq<Timer>, b: Books, now: nat)
    requires (forall t | t in q :: t.ts > now) && Balance(q0, q, f, a, b) && (b.calm ==> Ordered(q0, q, f, now))
    ensures AllPrompt(q, now) && (Kept(q0, q, f, a) <==> b.calm)
    ensures b.calm ==> multiset(f) == Due(q0, now) && multiset(q) == Later(q0, now) && InOrder(f)
  {
    NoneDue(q, now);
    hide Due, Later, Tags;
    if b.calm {
      assert Tags(q0) + Tags(a) + multiset{} == Tags(q0) + Tags(a);
      assert Tags(f) + Tags(q) + multiset{} == Tags(f) + Tags(q);
    } else if Kept(q0, q, f, a) {
      Same(Tags(q0) + Tags(a), b.extra, b.lost);
    }
  }

  lemma LeastLeft(q: seq<Timer>, now: nat)
    requires Heap(q) && q != [] && q[0].ts > now
    ensures forall t | t in q :: t.ts > now
  {
    forall i | 0 <= i < |q|
      ensures q[i].ts > now
    {
      RootIsLeast(q, i);
    }
  }

  class TimeSet {
    var q: seq<Timer>
    var fired: seq<Timer>               // timers whose callback was run so far
    var added: seq<Timer>               // timers added by callbacks so far

    constructor ()
      ensures q == [] && fired == [] && added == []
    {
      q, fired, added := [], [], [];
    }

    /** emplace: the new timer rises from the end while it is due before its parent. */
    method AddTimer(t: Timer)
      requires Heap(q)
      modifies `q
      ensures Heap(q) && multiset(q) == multiset(old(q)) + multiset{t} && q != []
      ensures old(q) != [] && t.ts >= old(q)[0].ts ==> q[0] == old(q)[0]
    {
      q := q + [t];
      var i := |q| - 1;
      while i > 0 && q[(i - 1) / 2].ts > q[i].ts
        invariant 0 <= i < |q| && |q| == |old(q)| + 1 && multiset(q) == multiset(old(q)) + multiset{t} && q[i] == t &&
          Rising(q, i)
        invariant i > 0 && old(q) != [] ==> q[0] == old(q)[0]
        invariant i == 0 && old(q) != [] ==> t.ts < old(q)[0].ts
      {
        hide Rising;
        Rises(q, (i - 1) / 2, i);
        q := Swap(q, i, (i - 1) / 2);
        i := (i - 1) / 2;
      }
      Risen(q, i);
    }

    /** pop: the last timer takes the root's place and sinks. */
    method Pop()
      requires Heap(q) && q != []
      modifies `q
      ensures Heap(q) && multiset(q) == multiset(old(q)) - multiset{old(q)[0]}
    {
      var n := |q| - 1;
      Popped(q);
      var last := q[n];
      q := q[..n];
      if n > 0 {
        q := q[0 := last];
        Sink();
      }
    }

    /** All but the root are in order. */
    method Sink()
      requires q != [] && Sinking(q, 0)
      modifies `q
      ensures Heap(q) && multiset(q) == multiset(old(q))
    {
      hide Sinking, Swap;
      var i := 0;
      while true
        invariant 0 <= i < |q| && |q| == |old(q)| && multiset(q) == multiset(old(q)) && Sinking(q, i)
        decreases |q| - i
      {
        var least := i;
        if 2 * i + 1 < |q| && q[2 * i + 1].ts < q[least].ts { least := 2 * i + 1; }
        if 2 * i + 2 < |q| && q[2 * i + 2].ts < q[least].ts { least := 2 * i + 2; }
        if least == i {
          Sunk(q, i);
          return;
        }
        Sinks(q, i, least);
        q := Swap(q, i, least);
        i := least;
      }
    }

    method NearestDelay(now: nat) returns (d: Option<nat>)
      requires Heap(q)
      ensures d.None? <==> q == []
      ensures d.Some? ==> (exists i | 0 <= i < |q| :: d.value == if q[i].ts <= now then 0 else q[i].ts - now)
      ensures d.Some? ==> forall i | 0 <= i < |q| :: now + d.value <= q[i].ts || d.value == 0
    {
      if q == [] { return None; }
      forall i | 0 <= i < |q|
        ensures q[0].ts <= q[i].ts
      {
        RootIsLeast(q, i);
      }
      d := Some(if q[0].ts <= now then 0 else q[0].ts - now);
    }

    /** What a callback does. */
    method AddAll(adds: seq<Timer>)
      requires Heap(q) && q != []
      modifies `q, `added
      ensures Heap(q) && q != [] && multiset(q) == multiset(old(q)) + multiset(adds) && added == old(added) + adds
      ensures (forall j | 0 <= j < |adds| :: adds[j].ts >= old(q)[0].ts) ==> q[0] == old(q)[0]
    {
      hide Heap;
      var i := 0;
      while i < |adds|
        invariant i <= |adds| && Heap(q) && q != [] && added == old(added) + adds[..i]
        invariant multiset(q) == multiset(old(q)) + multiset(adds[..i])
        invariant (forall j | 0 <= j < i :: adds[j].ts >= old(q)[0].ts) ==> q[0] == old(q)[0]
      {
        AddTimer(adds[i]);
        added := added + [adds[i]];
        OneMore(adds, i);
        Associate(multiset(old(q)), multiset(adds[..i]), multiset{adds[i]});
        i := i + 1;
      }
      assert adds[..i] == adds;
    }

    /**
     Runs the callback of the root, which may add timers, and then removes the root: the timer
     that fired, exactly if nothing was added that is due before it.
     */
    method FireRoot()
      requires Heap(q) && q != []
      modifies this
      ensures Heap(q) && fired == old(fired) + [old(q)[0]] && added == old(added) + Adds(old(q)[0])
      ensures Fired(old(q), q)
      ensures multiset(q) == multiset(old(q)) - multiset{old(q)[0]} + multiset(Adds(old(q)[0])) <==> Calm(old(q)[0])
    {
      hide Heap, Calm, Fired, UsedUp, First, Adds, UseUp;
      var t := q[0];
      fired := fired + [t];
      SpentHeap(q);
      q := UseUp(q);
      ghost var base := q;
      AddAll(Adds(t));
      ghost var full := q;
      RootAfter(old(q), base, full);
      Pop();
      FiredNow(old(q), base, full, q);
    }

    /**
     Runs every timer that comes due, including what callbacks add, until the rest is due later.
     Each timer there was or was added fires once or is left, exactly if no callback run on the
     way adds a timer due before the one that fired; then just what comes due fires, in order.
     */
    method HandleTimeout(now: nat)
      requires Heap(q)
      modifies this
      ensures Heap(q) && (forall t | t in q :: t.ts > now) && old(fired) <= fired && old(added) <= added
      ensures Kept(old(q), q, fired[|old(fired)|..], added[|old(added)|..]) <==> AllPrompt(old(q), now)
      ensures AllPrompt(old(q), now) ==>
        && multiset(fired[|old(fired)|..]) == Due(old(q), now) && multiset(q) == Later(old(q), now)
        && InOrder(fired[|old(fired)|..])
    {
      hide Due, Later, Tags, Size, Heap, AllPrompt, Fired, Calm, Balance, Ordered;
      ghost var n, m := |fired|, |added|;
      ghost var b := Books(true, multiset{}, multiset{}, (0, 0));
      BalanceStart(q, fired, added, now);
      while q != []
        invariant Heap(q) && n <= |fired| && m <= |added| && old(fired) <= fired && old(added) <= added
        invariant Balance(old(q), q, fired[n..], added[m..], b)
        invariant b.calm ==> Ordered(old(q), q, fired[n..], now)
        invariant AllPrompt(old(q), now) <==> b.calm && AllPrompt(q, now)
        decreases Size(q)
      {
        if q[0].ts > now {
          LeastLeft(q, now);
          break;
        }
        ghost var q0, f0, a0 := q, fired, added;
        FireRoot();
        assert fired[n..] == f0[n..] + [q0[0]] && added[m..] == a0[m..] + Adds(q0[0]);
        Smaller(q0, q);
        b := Settle(old(q), q0, q, f0[n..], a0[m..], b, now);
      }
      Settled(old(q), q, fired[n..], added[m..], b, now);
    }
  }

  /** A timer due at 10 whose callback, the clock having been set back, adds one due at 5. */
  function SetBack(): Timer { Timer(0, 10, Runs([Timer(1, 5, Idle)], Idle)) }

  /** It stays and will fire again, and the one it added is gone without having fired. */
  lemma LostAndRepeated(q: seq<Timer>)
    requires Fired([SetBack()], q)
    ensures !AllPrompt([SetBack()], 10) && multiset(q) == multiset{Spent(SetBack())}
  {
    var t, x := SetBack(), Timer(1, 5, Idle);
    assert Adds(t)[0] == x && x in Adds(t);
    NotPrompt([t], 10);
    var y :| Overtaken([t], q, y);
    assert y == x;
    Spelled(q, t, Spent(t), x);
  }

  lemma Spelled(q: seq<Timer>, t: Timer, s: Timer, x: Timer)
    requires multiset(q + [t, x]) == multiset([t] + [s] + [x])
    ensures multiset(q) == multiset{s}
  {
    assert multiset(q + [t, x]) == multiset(q) + multiset{t, x};
    assert multiset([t] + [s] + [x]) == multiset{s} + multiset{t, x};
    Cancel(multiset{t, x}, multiset(q), multiset{s});
  }
}
