/** The global task center: a list of waiting tasks, run in passes over what was waiting at the start. */
module TaskCenter {
  import opened Bags

  /** A task as the center sees it: what it schedules while it runs, and whether it ends by throwing. */
  datatype Task = Task(id: nat, spawns: seq<Task>, throws: bool)

  ghost function Ids(tasks: seq<Task>): seq<nat> {
    if tasks == [] then [] else [tasks[0].id] + Ids(tasks[1..])
  }

  /** What a whole pass schedules, in order. */
  ghost function Spawned(tasks: seq<Task>): seq<Task> {
    if tasks == [] then [] else tasks[0].spawns + Spawned(tasks[1..])
  }

  class Center {
    var waiting: seq<Task>
    var log: seq<nat>                   // ids of the tasks run so far

    constructor ()
      ensures waiting == [] && log == []
    {
      waiting, log := [], [];
    }

    method Schedule(t: Task)
      modifies `waiting
      ensures waiting == old(waiting) + [t]
    {
      waiting := waiting + [t];
    }

    /** Runs one task. */
    method Perform(t: Task) returns (threw: bool)
      modifies this
      ensures log == old(log) + [t.id] && waiting == old(waiting) + t.spawns && threw == t.throws
    {
      log := log + [t.id];
      var i := 0;
      while i < |t.spawns|
        invariant i <= |t.spawns| && log == old(log) + [t.id] && waiting == old(waiting) + t.spawns[..i]
      {
        Schedule(t.spawns[i]);
        i := i + 1;
      }
      threw := t.throws;
    }

    /**
     One pass: exactly the tasks that were waiting, in order and once each, whether they throw
     or not; exactly the tasks they scheduled are left.  The catch-all around a task is modelled
     by ignoring what Perform says about throwing.
     */
    method Run()
      modifies this
      ensures log == old(log) + Ids(old(waiting)) && waiting == Spawned(old(waiting))
    {
      hide Ids, Spawned;
      var len := |waiting|;
      ghost var tasks, k := waiting, 0;
      NoneYet();
      while len > 0 && waiting != []
        invariant 0 <= k <= k + len == |tasks| && waiting == tasks[k..] + Spawned(tasks[..k]) &&
          log == old(log) + Ids(tasks[..k])
      {
        len := len - 1;
        var threw := Perform(waiting[0]);       // catch (...): whether it threw is ignored
        waiting := waiting[1..];
        OneMore(tasks, k);
        assert waiting == tasks[k + 1..] + (Spawned(tasks[..k]) + tasks[k].spawns);
        k := k + 1;
      }
      assert tasks[..k] == tasks && tasks[k..] == [];
    }
  }

  lemma NoneYet()
    ensures Ids([]) == [] && Spawned([]) == []
  {
  }

  lemma {:induction false} OneMore(tasks: seq<Task>, k: nat)
    requires k < |tasks|
    ensures Ids(tasks[..k + 1]) == Ids(tasks[..k]) + [tasks[k].id]
    ensures Spawned(tasks[..k + 1]) == Spawned(tasks[..k]) + tasks[k].spawns
    decreases |tasks|
  {
    if k == 0 {
      assert tasks[..1][1..] == [] && tasks[..0] == [];
    } else {
      OneMore(tasks[1..], k - 1);
      assert tasks[..k + 1][1..] == tasks[1..][..k] && tasks[..k][1..] == tasks[1..][..k - 1];
    }
  }

  // ---------------------------------------------------------------- pass after pass

  /** What is waiting after n passes with nothing scheduled from outside. */
  ghost function Generation(tasks: seq<Task>, n: nat): seq<Task>
    decreases n
  {
    if n == 0 then tasks else Generation(Spawned(tasks), n - 1)
  }

  /** Everything run in n passes. */
  ghost function History(tasks: seq<Task>, n: nat): seq<nat>
    decreases n
  {
    if n == 0 then [] else Ids(tasks) + History(Spawned(tasks), n - 1)
  }

  /** The tasks and all that they bring about. */
  ghost function Everything(tasks: seq<Task>): multiset<nat> {
    if tasks == [] then multiset{} else multiset{tasks[0].id} + Everything(tasks[0].spawns) + Everything(tasks[1..])
  }

  ghost function Height(tasks: seq<Task>): nat {
    if tasks == [] then 0
    else
      var a, b := 1 + Height(tasks[0].spawns), Height(tasks[1..]);
      if a < b then b else a
  }

  lemma Regroup(a: multiset<nat>, b: multiset<nat>, c: multiset<nat>, d: multiset<nat>)
    ensures a + b + (c + d) == a + c + (b + d)
  {
  }

  lemma {:induction false} ConcatEverything(a: seq<Task>, b: seq<Task>)
    ensures Everything(a + b) == Everything(a) + Everything(b)
    ensures Height(a + b) == if Height(a) < Height(b) then Height(b) else Height(a)
    decreases |a|
  {
    if a == [] {
      assert a + b == b;
    } else {
      assert (a + b)[1..] == a[1..] + b;
      ConcatEverything(a[1..], b);
      Associate(multiset{a[0].id} + Everything(a[0].spawns), Everything(a[1..]), Everything(b));
    }
  }

  lemma {:induction false} OnePass(tasks: seq<Task>)
    ensures Everything(tasks) == multiset(Ids(tasks)) + Everything(Spawned(tasks))
    ensures tasks != [] ==> Height(tasks) == 1 + Height(Spawned(tasks))
    decreases |tasks|
  {
    if tasks != [] {
      var t, rest := tasks[0], tasks[1..];
      OnePass(rest);
      ConcatEverything(t.spawns, Spawned(rest));
      assert multiset([t.id] + Ids(rest)) == multiset{t.id} + multiset(Ids(rest));
      Regroup(multiset{t.id}, Everything(t.spawns), multiset(Ids(rest)), Everything(Spawned(rest)));
    }
  }

  /** After as many passes as tasks are nested deep, nothing is waiting and every task has run exactly once. */
  lemma {:induction false} RunsOut(tasks: seq<Task>)
    ensures Generation(tasks, Height(tasks)) == [] && multiset(History(tasks, Height(tasks))) == Everything(tasks)
    decreases Height(tasks)
  {
    if tasks != [] {
      OnePass(tasks);
      RunsOut(Spawned(tasks));
    }
  }

  /** A task scheduled during a pass runs in the next one: with fewer passes than its height something still waits. */
  lemma {:induction false} NotSooner(tasks: seq<Task>, n: nat)
    requires n < Height(tasks)
    ensures Generation(tasks, n) != []
    decreases n
  {
    if n > 0 {
      OnePass(tasks);
      NotSooner(Spawned(tasks), n - 1);
    }
  }
}
