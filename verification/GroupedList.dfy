/**
 The grouped list: a doubly linked list whose nodes live in memory chunks (groups) kept in
 a vector, with one free list of erased nodes per group.
 */
module GroupedList {
  type Addr = int

  const NIL: Addr := -1
  const END: Addr := -2                 // the address of the list's own end node

  /** One chunk: nodes [base, base + size), how many hold elements, and the head of its free list. */
  datatype Group = Group(base: Addr, size: nat, count: nat, free: Addr)

  predicate In(a: Addr, g: Group) { g.base <= a < g.base + g.size }

  predicate Apart(g: Group, h: Group) { g.base + g.size <= h.base || h.base + h.size <= g.base }

  ghost predicate Ranges(groups: seq<Group>) {
    && (forall i | 0 <= i < |groups| :: groups[i].base >= 0 && groups[i].size >= 1)
    && (forall i, j | 0 <= i < j < |groups| :: Apart(groups[i], groups[j]))
  }

  // ---------------------------------------------------------------- finding groups

  lemma OneHome(groups: seq<Group>, i: nat, j: nat, p: Addr)
    requires Ranges(groups) && i < |groups| && j < |groups| && In(p, groups[i]) && In(p, groups[j])
    ensures i == j
  {
  }

  /** The search of erase: outwards from the last searched group, which may be an inactive one. */
  method FindGroup(groups: seq<Group>, active: nat, searched: nat, p: Addr) returns (k: nat)
    requires Ranges(groups) && active <= |groups| && searched < |groups|
    requires exists i | 0 <= i < active :: In(p, groups[i])
    ensures k < active && In(p, groups[k])
  {
    ghost var home: int :| 0 <= home < active && In(p, groups[home]);
    k := searched;
    if !In(p, groups[k]) {
      var left: int := k - 1;
      k := k + 1;
      var rightInside := k < active;
      var leftInside := left >= 0;
      while true
        invariant left < searched < k && -1 <= left
        invariant rightInside == (k < active) && leftInside == (left >= 0)
        invariant home <= left || k <= home
        decreases (if rightInside then active - k else 0) + (if leftInside then left + 1 else 0)
      {
        if rightInside {
          if In(p, groups[k]) { break; }
          k := k + 1;
          rightInside := k < active;
        }
        if leftInside {
          if In(p, groups[left]) {
            k := left;
            break;
          }
          left := left - 1;
          leftInside := left >= 0;
        }
      }
    }
    OneHome(groups, home, k, p);
  }

  /** None of the groups strictly between l and r has an erased node to reuse. */
  ghost predicate Bare(groups: seq<Group>, l: int, r: int) {
    forall i | l < i < r && 0 <= i < |groups| :: groups[i].free == NIL
  }

  ghost predicate Offers(groups: seq<Group>, active: nat, k: int) {
    0 <= k < active <= |groups| && groups[k].free != NIL
  }

  function Dist(a: int, b: int): int { if a <= b then b - a else a - b }

  /** No usable group is nearer to home than k, but for `slack`. */
  ghost predicate Near(groups: seq<Group>, active: nat, home: int, k: int, slack: nat) {
    forall i | Offers(groups, active, i) :: Dist(home, k) <= Dist(home, i) + slack
  }

  /** l and r are the usable groups next to home on either side. */
  ghost predicate Flank(groups: seq<Group>, active: nat, home: int, l: int, r: int) {
    Offers(groups, active, l) && Offers(groups, active, r) && l < home < r && Bare(groups, l, r)
  }

  /**
   The search that starts from s misses the group nearest to home: the two usable groups next to
   home are one apart in distance, and the search comes upon the further one first.
   */
  ghost predicate Short(groups: seq<Group>, active: nat, s: int, home: int) {
    exists l, r :: Flank(groups, active, home, l, r) && FurtherFirst(s, home, l, r)
  }

  predicate FurtherFirst(s: int, home: int, l: int, r: int) {
    || (s < home && home - l == r - home + 1 && l > 2 * s - home)
    || (s > home && r - home == home - l + 1 && (l > 0 || home == 1 || r > 2 * s - home + 1))
  }

  /** How near to home the search from s must come with k. */
  ghost predicate NearEnough(groups: seq<Group>, active: nat, s: int, home: int, k: int) {
    Near(groups, active, home, k, 1) && (Near(groups, active, home, k, 0) <==> !Short(groups, active, s, home))
  }

  /** With nothing usable strictly between lo and hi, k is the nearest if both of them are as far. */
  lemma NearBetween(groups: seq<Group>, active: nat, s: int, home: int, lo: int, hi: int, k: int)
    requires active <= |groups| && lo < home < hi && Bare(groups, lo, hi)
    requires lo < 0 || Dist(home, k) <= home - lo
    requires hi >= active || Dist(home, k) <= hi - home
    requires forall l, r | 0 <= l <= lo && hi <= r < active && FurtherFirst(s, home, l, r) ::
               !Flank(groups, active, home, l, r)
    ensures NearEnough(groups, active, s, home, k)
  {
  }

  /** k, on the one side of home, is usable; i, on the other, is usable and one nearer, and so missed. */
  lemma NearMissed(groups: seq<Group>, active: nat, s: int, home: int, k: int, i: int)
    requires Offers(groups, active, k) && Offers(groups, active, i) && Dist(home, k) == Dist(home, i) + 1
    requires if k < home < i then Bare(groups, k, i) && FurtherFirst(s, home, k, i)
             else i < home < k && Bare(groups, i, k) && FurtherFirst(s, home, i, k)
    ensures NearEnough(groups, active, s, home, k)
  {
    if k < home { assert Flank(groups, active, home, k, i); } else { assert Flank(groups, active, home, i, k); }
  }

  lemma BareJoin(groups: seq<Group>, l: int, m: int, r: int)
    requires Bare(groups, l, m) && Bare(groups, m - 1, r)
    ensures Bare(groups, l, r)
  {
  }

  lemma NearSelf(groups: seq<Group>, active: nat, s: int, k: int)
    requires Offers(groups, active, k)
    ensures NearEnough(groups, active, s, k, k)
  {
  }

  /**
   Of what was looked at, strictly between left and right: the usable groups nearest to either end,
   -1 if there is none.
   */
  ghost predicate Closest(groups: seq<Group>, active: nat, left: int, right: int, cl: int, cr: int) {
    && (cl == -1) == (cr == -1)
    && (if cl != -1 then Offers(groups, active, cl) && left < cl < right &&
      Bare(groups, left, cl) else Bare(groups, left, right))
    && (cr != -1 ==> Offers(groups, active, cr) && left < cr < right && Bare(groups, cr, right))
  }

  lemma ClosestStart(groups: seq<Group>, active: nat, s: nat)
    requires s < |groups| && active <= |groups| && Bare(groups, active - 1, |groups|)
    ensures var c := if groups[s].free == NIL then -1 else s as int; Closest(groups, active, s - 1, s + 1, c, c)
  {
  }

  lemma ClosestRight(groups: seq<Group>, active: nat, left: int, right: int, cl: int, cr: int)
    requires Closest(groups, active, left, right, cl, cr) && -1 <= left < right < active <= |groups|
    ensures (cl == -1) == (cr == -1)
    ensures groups[right].free == NIL ==> Closest(groups, active, left, right + 1, cl, cr)
    ensures groups[right].free != NIL ==>
      Closest(groups, active, left, right + 1, if cl == -1 then right else cl, right)
  {
  }

  lemma ClosestLeft(groups: seq<Group>, active: nat, left: int, right: int, cl: int, cr: int)
    requires Closest(groups, active, left, right, cl, cr) && 0 <= left < right && left < |groups| && active <= |groups|
    requires Bare(groups, active - 1, |groups|)
    ensures (cl == -1) == (cr == -1)
    ensures groups[left].free == NIL ==> Closest(groups, active, left - 1, right, cl, cr)
    ensures groups[left].free != NIL ==> Closest(groups, active, left - 1, right, left, if cr == -1 then left else cr)
  {
  }

  /**
   p's group `home` has no erased node; it was found to the right of s, from where everything
   behind `left` was looked at; `back` is the last usable group of these, if there is one.
   */
  method LookRight(groups: seq<Group>, active: nat, ghost s: int, home: nat, left: int, back: int)
    returns (k: nat, done: bool)
    requires home < active <= |groups| && groups[home].free == NIL && -1 <= left < home - 1
    requires s < home && left == Max(-1, 2 * s - home)
    requires exists other :: Closest(groups, active, left, home, other, back)
    ensures done ==> Offers(groups, active, k) && NearEnough(groups, active, s, home, k)
    ensures back != -1 && home - back <= 2 ==> done && k == back
    ensures !done ==> home < k && Bare(groups, left, k) && (k >= active || k == home + (home - left) - 1)
  {
    hide NearEnough;
    var distance := if back != -1 then home - back else home - left;
    if back != -1 && distance <= 2 {
      BackRight(groups, active, s, home, back, home + 1);
      return back, true;
    }
    var end, hit := ScanRight(groups, active, home, distance);
    ghost var lo := if back != -1 then back else left;
    BareJoin(groups, lo, home, end);
    if hit {
      NearBetween(groups, active, s, home, lo, end, end);
      return end, true;
    }
    if back != -1 {
      BackRight(groups, active, s, home, back, end);
      return back, true;
    }
    return end, false;
  }

  /** Back on the left is usable, and nothing else up to hi, which is hardly nearer. */
  lemma BackRight(groups: seq<Group>, active: nat, s: int, home: int, back: int, hi: int)
    requires Offers(groups, active, back) && back < home < hi && Bare(groups, back, hi)
    requires hi >= active || hi >= home + (home - back) - 1
    requires s < home && back > 2 * s - home
    ensures NearEnough(groups, active, s, home, back)
  {
    hide NearEnough;
    var i := home + (home - back) - 1;
    if home < i && Offers(groups, active, i) {
      NearMissed(groups, active, s, home, back, i);
    } else if hi == i < active {
      NearBetween(groups, active, s, home, back, i + 1, back);
    } else {
      NearBetween(groups, active, s, home, back, hi, back);
    }
  }

  method LookLeft(groups: seq<Group>, active: nat, ghost s: int, home: nat, right: nat, back: int)
    returns (k: int, done: bool)
    requires home < active <= |groups| && groups[home].free == NIL && home < s < right
    requires right <= 2 * s - home + 1 && (right >= active || right == 2 * s - home + 1)
    requires exists other :: Closest(groups, active, home, right, back, other)
    ensures done ==> Offers(groups, active, k) && NearEnough(groups, active, s, home, k)
    ensures !done ==> -1 <= k < home && Bare(groups, k, right)
    ensures !done ==> k == -1 || (k == home - (right - home) + 1 && right - home <= home)
  {
    hide NearEnough;
    var distance := if back != -1 then back - home else right - home;
    if back != -1 && distance <= 2 {
      BackLeft(groups, active, s, home, back, home - 1);
      return back, true;
    }
    var end, hit := ScanLeft(groups, active, home, distance);
    ghost var hi := if back != -1 then back else right;
    BareJoin(groups, end, home + 1, hi);
    if hit {
      NearBetween(groups, active, s, home, end, hi, end);
      return end, true;
    }
    if back != -1 {
      BackLeft(groups, active, s, home, back, end);
      return back, true;
    }
    return end, false;
  }

  lemma BackLeft(groups: seq<Group>, active: nat, s: int, home: int, back: int, lo: int)
    requires Offers(groups, active, back) && -1 <= lo < home < back && home < s && Bare(groups, lo, back)
    requires lo == -1 || (lo == home - (back - home) + 1 && lo > 0) || (lo == home - 1 && back - home <= 2)
    ensures NearEnough(groups, active, s, home, back)
  {
    hide NearEnough;
    var i := home - (back - home) + 1;
    if i < home && i <= lo && Offers(groups, active, i) {
      NearMissed(groups, active, s, home, back, i);
    } else if lo == i {
      NearBetween(groups, active, s, home, i - 1, back, back);
    } else {
      NearBetween(groups, active, s, home, lo, back, back);
    }
  }

  /**
   The last loop of the search: nothing strictly between left0 and right0 is usable, and it
   goes on to both sides in turn, the right one first; off says how much further the right one
   is.  It ends with one of lo and hi, between which nothing is usable.
   */
  method Outwards(groups: seq<Group>, active: nat, left0: int, right0: nat, ghost home: int, ghost off: int)
    returns (k: nat, ghost lo: int, ghost hi: int)
    requires active <= |groups| && -1 <= left0 < home < right0 && left0 < |groups| && Bare(groups, left0, right0)
    requires (exists i :: Offers(groups, active, i)) && Bare(groups, active - 1, |groups|)
    requires right0 >= active || left0 < 0 || right0 - home == home - left0 + off
    ensures Offers(groups, active, k) && -1 <= lo <= left0 && right0 <= hi && Bare(groups, lo, hi)
    ensures k == lo || k == hi
    ensures k == hi ==> lo < 0 || hi - home == home - lo + off
    ensures k == lo ==> hi >= active || hi - home == home - lo + off + 1
  {
    ghost var w :| Offers(groups, active, w);
    var left, right := left0, right0;
    var rightInside := right < active;
    var leftInside := left >= 0;
    while true
      invariant -1 <= left <= left0 && right0 <= right && Bare(groups, left, right) && (w <= left || right <= w)
      invariant rightInside == (right < active) && leftInside == (left >= 0)
      invariant right >= active || left < 0 || right - home == home - left + off
      decreases (if rightInside then active - right else 0) + (if leftInside then left + 1 else 0)
    {
      if rightInside {
        if groups[right].free != NIL { return right, left, right; }
        right := right + 1;
        rightInside := right < active;
      }
      if leftInside {
        if groups[left].free != NIL { return left, left, right; }
        left := left - 1;
        leftInside := left >= 0;
      }
    }
  }

  /** The inner scan when p's group was found on the right: as far right as was already looked left. */
  method ScanRight(groups: seq<Group>, active: nat, right0: nat, distance: int) returns (right: nat, hit: bool)
    requires right0 < active <= |groups| && distance >= 2 && groups[right0].free == NIL
    ensures right0 < right && Bare(groups, right0 - 1, right)
    ensures hit ==> Offers(groups, active, right) && right < right0 + distance - 1
    ensures !hit ==> right == active <= right0 + distance || right == right0 + distance - 1
  {
    var end := if right0 + distance > active then active else right0 + distance - 1;
    right := right0 + 1;
    hit := false;
    while right != end
      invariant right0 < right <= end && Bare(groups, right0 - 1, right)
      decreases end - right
    {
      if groups[right].free != NIL { return right, true; }
      right := right + 1;
    }
  }

  method ScanLeft(groups: seq<Group>, active: nat, left0: nat, distance: int) returns (left: int, hit: bool)
    requires left0 < active <= |groups| && distance >= 2 && groups[left0].free == NIL
    ensures -1 <= left < left0 && Bare(groups, left, left0 + 1)
    ensures hit ==> Offers(groups, active, left) && (distance <= left0 ==> left > left0 - distance + 1)
    ensures !hit ==> left == -1 || (left == left0 - distance + 1 && distance <= left0)
  {
    var end: int := if left0 - distance < 0 then -1 else left0 - distance + 1;
    left := left0 - 1;
    hit := false;
    while left != end
      invariant end <= left < left0 && Bare(groups, left, left0 + 1)
      decreases left - end
    {
      if groups[left].free != NIL { return left, true; }
      left := left - 1;
    }
  }

  /** b is the last usable group on the way from s to home, at most two away from it. */
  ghost predicate Passed(groups: seq<Group>, active: nat, s: int, home: int, b: int) {
    Offers(groups, active, b) && s <= b < home <= b + 2 && Bare(groups, b, home + 1)
  }

  lemma PassedIsClosest(groups: seq<Group>, active: nat, s: int, home: int, left: int, cl: int, cr: int)
    requires Closest(groups, active, left, home, cl, cr) && left < s && 0 <= home < active <= |groups|
    ensures forall b | Passed(groups, active, s, home, b) :: cr == b != -1 && home - b <= 2 && groups[home].free == NIL
  {
  }

  lemma NonePassed(groups: seq<Group>, active: nat, s: int, home: int)
    requires home <= s
    ensures forall b :: !Passed(groups, active, s, home, b)
  {
  }

  /** The end of a search that found home to the right of s, or in s itself. */
  lemma OutRight(groups: seq<Group>, active: nat, s: int, home: int, left: int, k: int, lo: int, hi: int, off: int)
    requires Offers(groups, active, k) && -1 <= lo < home < hi && Bare(groups, lo, hi) && lo <= left
    requires (s < home && left == Max(-1, 2 * s - home)) || s == home
    requires (k == hi && (lo < 0 || hi - home == home - lo + off)) ||
             (k == lo && (hi >= active || hi - home == home - lo + off + 1))
    requires -1 <= off <= 0
    ensures NearEnough(groups, active, s, home, k)
  {
    hide NearEnough;
    NearBetween(groups, active, s, home, lo, hi, k);
  }

  /** The end of a search that found home to the left of s. */
  lemma OutLeft(groups: seq<Group>, active: nat, s: int, home: int, left: int, right: int, k: int, lo: int, hi: int)
    requires Offers(groups, active, k) && -1 <= lo < home < hi && Bare(groups, lo, hi) && lo <= left && right <= hi
    requires s > home && (right >= active || right == 2 * s - home + 1)
    requires left == -1 || (left == home - (right - home) + 1 && right - home <= home)
    requires (k == hi && (lo < 0 || hi - home == home - lo + 1)) ||
             (k == lo && (hi >= active || hi - home == home - lo + 2))
    ensures NearEnough(groups, active, s, home, k)
  {
    hide NearEnough;
    if k == hi && Offers(groups, active, lo) {
      NearMissed(groups, active, s, home, k, lo);
    } else if k == hi && lo >= 0 {
      NearBetween(groups, active, s, home, lo - 1, hi, k);
    } else {
      NearBetween(groups, active, s, home, lo, hi, k);
    }
  }

  /** Four groups of one node each, of which the first and the last have an erased node. */
  function FourGroups(): seq<Group> { [Group(0, 1, 0, 0), Group(1, 1, 1, NIL), Group(2, 1, 1, NIL), Group(3, 1, 0, 3)] }

  /** A search for the second group that starts from the third misses the first, which is next to it. */
  lemma NotTheNearest()
    ensures Short(FourGroups(), 4, 2, 1)
    ensures forall k | NearEnough(FourGroups(), 4, 2, 1, k) && Offers(FourGroups(), 4, k) :: k == 3
  {
    assert Flank(FourGroups(), 4, 1, 0, 3);
    assert forall i | Offers(FourGroups(), 4, i) :: i == 0 || i == 3;
    assert Near(FourGroups(), 4, 1, 0, 0);
  }

  /** The right end has gone as far from s as the left one, as far as there are groups. */
  predicate InStep(active: nat, s: int, left: int, right: int) {
    (right - s <= s - left || left == -1) && (right >= active || left == Max(-1, 2 * s - right))
  }

  /**
   get_nearest_freelist_group, started from any last searched group: always ends, with an
   active group that has an erased node, and leaves p's own group as the last searched one.
   The group found is at most one further from p's own than the nearest, and it is the nearest
   exactly when the two usable groups next to p's own are not Short for the last searched group.
   */
  method NearestFree(groups: seq<Group>, active: nat, searched0: nat, p: Addr) returns (k: nat, searched: nat)
    requires Ranges(groups) && active <= |groups| && searched0 < |groups|
    requires exists i | 0 <= i < active :: In(p, groups[i])
    requires (exists i :: Offers(groups, active, i)) && Bare(groups, active - 1, |groups|)
    ensures Offers(groups, active, k) && searched < active && In(p, groups[searched])
    ensures Near(groups, active, searched, k, 1)
    ensures Near(groups, active, searched, k, 0) <==> !Short(groups, active, searched0, searched)
    ensures In(p, groups[searched0]) || groups[searched].free != NIL ==> Near(groups, active, searched, k, 0)
    ensures forall b | Passed(groups, active, searched0, searched, b) :: k == b
  {
    k, searched := FindFree(groups, active, searched0, p);
    if In(p, groups[searched0]) { OneHome(groups, searched, searched0, p); }
  }

  method FindFree(groups: seq<Group>, active: nat, searched0: nat, p: Addr) returns (k: nat, searched: nat)
    requires Ranges(groups) && active <= |groups| && searched0 < |groups|
    requires exists i | 0 <= i < active :: In(p, groups[i])
    requires (exists i :: Offers(groups, active, i)) && Bare(groups, active - 1, |groups|)
    ensures Offers(groups, active, k) && searched < active && In(p, groups[searched])
    ensures NearEnough(groups, active, searched0, searched, k)
    ensures forall b | Passed(groups, active, searched0, searched, b) :: k == b
  {
    hide Ranges, In, NearEnough, Closest, Bare, Passed, FurtherFirst;
    ghost var home: int :| 0 <= home < active && In(p, groups[home]);
    ghost var s: int := searched0;
    searched := searched0;
    var left: int, right := searched - 1, searched + 1;
    if In(p, groups[searched]) {
      OneHome(groups, home, searched, p);
      NonePassed(groups, active, s, searched);
      if groups[searched].free != NIL {
        NearSelf(groups, active, s, searched);
        return searched, searched;
      }
      OnlyOne(groups, searched);
      ghost var lo: int, hi: int;
      k, lo, hi := Outwards(groups, active, left, right, searched, 0);
      OutRight(groups, active, s, searched, left, k, lo, hi, 0);
    } else {
      var rightInside := right < active;
      var leftInside := left >= 0;
      var closestLeft: int := if groups[searched].free == NIL then -1 else searched;
      var closestRight: int := closestLeft;
      ClosestStart(groups, active, searched);
      while true
        invariant left < searched0 < right && -1 <= left && searched == searched0 && InStep(active, s, left, right)
        invariant rightInside == (right < active) && leftInside == (left >= 0)
        invariant home <= left || right <= home
        invariant Closest(groups, active, left, right, closestLeft, closestRight)
        decreases (if rightInside then active - right else 0) + (if leftInside then left + 1 else 0)
      {
        if rightInside {
          if In(p, groups[right]) {
            searched := right;
            PassedIsClosest(groups, active, s, right, left, closestLeft, closestRight);
            k := SettleRight(groups, active, s, right, left, closestRight);
            return k, searched;
          }
          ClosestRight(groups, active, left, right, closestLeft, closestRight);
          if groups[right].free != NIL {
            if closestRight == -1 && closestLeft == -1 { closestLeft := right; }
            closestRight := right;
          }
          right := right + 1;
          rightInside := right < active;
        }
        if leftInside {
          if In(p, groups[left]) {
            OneHome(groups, home, left, p);
            searched := left;
            NonePassed(groups, active, s, left);
            k := SettleLeft(groups, active, s, left, right, closestLeft);
            return k, searched;
          }
          ClosestLeft(groups, active, left, right, closestLeft, closestRight);
          if groups[left].free != NIL {
            if closestLeft == -1 && closestRight == -1 { closestRight := left; }
            closestLeft := left;
          }
          left := left - 1;
          leftInside := left >= 0;
        }
      }
    }
  }

  /** p's group was found to the right of s. */
  method SettleRight(groups: seq<Group>, active: nat, ghost s: int, home: nat, left: int, back: int) returns (k: nat)
    requires home < active <= |groups| && -1 <= left < home - 1 && s < home && left == Max(-1, 2 * s - home)
    requires exists other :: Closest(groups, active, left, home, other, back)
    requires (exists i :: Offers(groups, active, i)) && Bare(groups, active - 1, |groups|)
    ensures Offers(groups, active, k) && NearEnough(groups, active, s, home, k)
    ensures back != -1 && home - back <= 2 && groups[home].free == NIL ==> k == back
  {
    hide NearEnough, Closest, Bare;
    if groups[home].free != NIL {
      NearSelf(groups, active, s, home);
      return home;
    }
    var right, done := LookRight(groups, active, s, home, left, back);
    if done { return right; }
    ghost var lo: int, hi: int;
    k, lo, hi := Outwards(groups, active, left, right, home, -1);
    OutRight(groups, active, s, home, left, k, lo, hi, -1);
  }

  /** p's group was found to the left of s. */
  method SettleLeft(groups: seq<Group>, active: nat, ghost s: int, home: nat, right: nat, back: int) returns (k: nat)
    requires home < active <= |groups| && home < s < right
    requires right <= 2 * s - home + 1 && (right >= active || right == 2 * s - home + 1)
    requires exists other :: Closest(groups, active, home, right, back, other)
    requires (exists i :: Offers(groups, active, i)) && Bare(groups, active - 1, |groups|)
    ensures Offers(groups, active, k) && NearEnough(groups, active, s, home, k)
  {
    hide NearEnough, Closest, Bare;
    if groups[home].free != NIL {
      NearSelf(groups, active, s, home);
      return home;
    }
    var left, done := LookLeft(groups, active, s, home, right, back);
    if done { return left; }
    ghost var lo: int, hi: int;
    k, lo, hi := Outwards(groups, active, left, right, home, 1);
    OutLeft(groups, active, s, home, left, right, k, lo, hi);
  }

  lemma OnlyOne(groups: seq<Group>, k: nat)
    requires k < |groups| && groups[k].free == NIL
    ensures Bare(groups, k - 1, k + 1)
  {
  }

  // ---------------------------------------------------------------- the linked ring

  ghost predicate Distinct(s: seq<Addr>) { forall i, j | 0 <= i < j < |s| :: s[i] != s[j] }

  type Links = map<Addr, Addr>

  /** loop is a ring under next, and prev is its inverse. */
  ghost predicate Linked(next: Links, prev: Links, loop: seq<Addr>) {
    forall i, j {:trigger loop[i], loop[j]} | 0 <= i < |loop| && j == (if i + 1 < |loop| then i + 1 else 0) ::
      Edge(next, prev, loop[i], loop[j])
  }

  ghost predicate Edge(next: Links, prev: Links, a: Addr, b: Addr) {
    a in next && next[a] == b && b in prev && prev[b] == a
  }

  function Plus(s: seq<Addr>, q: nat, n: Addr): (r: seq<Addr>)
    requires q <= |s|
    ensures |r| == |s| + 1
    ensures forall i | 0 <= i < |r| :: r[i] == if i < q then s[i] else if i == q then n else s[i - 1]
  {
    s[..q] + [n] + s[q..]
  }

  function Minus(s: seq<Addr>, q: nat): (r: seq<Addr>)
    requires q < |s|
    ensures |r| == |s| - 1
    ensures forall i | 0 <= i < |r| :: r[i] == if i < q then s[i] else s[i + 1]
  {
    s[..q] + s[q + 1..]
  }

  function Ring(loop: seq<Addr>, i: nat): Addr
    requires i <= |loop| && loop != []
  {
    if i < |loop| then loop[i] else loop[0]
  }

  lemma RingAt(next: Links, prev: Links, loop: seq<Addr>, i: nat)
    requires Linked(next, prev, loop) && i < |loop|
    ensures loop[i] in next && next[loop[i]] == Ring(loop, i + 1)
    ensures Ring(loop, i + 1) in prev && prev[Ring(loop, i + 1)] == loop[i]
  {
    var j := if i + 1 < |loop| then i + 1 else 0;
    assert Edge(next, prev, loop[i], loop[j]);
  }

  lemma LinkInsert(next: Links, prev: Links, loop: seq<Addr>, q: nat, n: Addr, next': Links, prev': Links)
    requires Linked(next, prev, loop) && Distinct(loop) && 1 <= q <= |loop| && n !in loop
    requires next' == next[n := Ring(loop, q)][loop[q - 1] := n]
    requires prev' == prev[n := loop[q - 1]][Ring(loop, q) := n]
    ensures Linked(next', prev', Plus(loop, q, n)) && Distinct(Plus(loop, q, n))
  {
    var loop' := Plus(loop, q, n);
    forall i, j | 0 <= i < |loop'| && j == (if i + 1 < |loop'| then i + 1 else 0)
      ensures Edge(next', prev', loop'[i], loop'[j])
    {
      if i != q && j != q {
        var k := if i < q then i else i - 1;
        LinkKept(next, prev, loop, q, n, next', prev', k);
        assert loop'[i] == loop[k] && loop'[j] == Ring(loop, k + 1);
      }
    }
  }

  lemma LinkKept(next: Links, prev: Links, loop: seq<Addr>, q: nat, n: Addr, next': Links, prev': Links, k: nat)
    requires Linked(next, prev, loop) && Distinct(loop) && 1 <= q <= |loop| && n !in loop && k < |loop| && k + 1 != q
    requires next' == next[n := Ring(loop, q)][loop[q - 1] := n]
    requires prev' == prev[n := loop[q - 1]][Ring(loop, q) := n]
    ensures Edge(next', prev', loop[k], Ring(loop, k + 1))
  {
    RingAt(next, prev, loop, k);
    hide Linked;
    assert loop[k] != loop[q - 1] && Ring(loop, k + 1) != Ring(loop, q) && Ring(loop, k + 1) in loop;
  }

  lemma LinkErase(next: Links, prev: Links, loop: seq<Addr>, q: nat, next': Links, prev': Links)
    requires Linked(next, prev, loop) && Distinct(loop) && 1 <= q < |loop|
    requires forall a | a in next && a != loop[q] ::
      a in next' && next'[a] == if a == loop[q - 1] then Ring(loop, q + 1) else next[a]
    requires forall a | a in prev && a != loop[q] ::
      a in prev' && prev'[a] == if a == Ring(loop, q + 1) then loop[q - 1] else prev[a]
    ensures Linked(next', prev', Minus(loop, q)) && Distinct(Minus(loop, q))
  {
    var loop' := Minus(loop, q);
    forall i, j | 0 <= i < |loop'| && j == (if i + 1 < |loop'| then i + 1 else 0)
      ensures Edge(next', prev', loop'[i], loop'[j])
    {
      var k := if i < q then i else i + 1;
      RingAt(next, prev, loop, k);
      RingAt(next, prev, loop, q);
      assert loop'[i] == loop[k];
    }
  }

  // ---------------------------------------------------------------- groups, free lists and counts

  /** The groups, of which the first `active` hold elements; in the last of those the nodes below `last` are used. */
  datatype Vec = Vec(groups: seq<Group>, active: nat, last: Addr, frees: seq<seq<Addr>>)

  ghost predicate Shape(v: Vec) {
    && Ranges(v.groups) && |v.frees| == |v.groups| && v.active <= |v.groups|
    && (v.active > 0 ==> var g := v.groups[v.active - 1]; g.base <= v.last <= g.base + g.size)
  }

  /** How many nodes of group i have ever been handed out since it was last empty. */
  ghost function Used(v: Vec, i: nat): int
    requires i < v.active <= |v.groups|
  {
    if i + 1 < v.active then v.groups[i].size else v.last - v.groups[i].base
  }

  ghost predicate Slot(v: Vec, i: int, a: Addr) {
    0 <= i < v.active <= |v.groups| && v.groups[i].base <= a < v.groups[i].base + Used(v, i)
  }

  /** The free list: linked through prev, every node on it marked by a null next. */
  ghost predicate Chain(next: Links, prev: Links, head: Addr, fl: seq<Addr>)
    decreases |fl|
  {
    if fl == [] then head == NIL
    else head == fl[0] && head in next && next[head] == NIL && head in prev && Chain(next, prev, prev[head], fl[1..])
  }

  ghost predicate FreeOk(next: Links, prev: Links, v: Vec, i: nat)
    requires i < v.active <= |v.groups| == |v.frees|
  {
    && Chain(next, prev, v.groups[i].free, v.frees[i]) && Distinct(v.frees[i])
    && (forall a | a in v.frees[i] :: Slot(v, i, a))
    && |v.frees[i]| + v.groups[i].count == Used(v, i)
  }

  ghost predicate FreesOk(next: Links, prev: Links, v: Vec) {
    v.active <= |v.groups| == |v.frees| && forall i | 0 <= i < v.active :: FreeOk(next, prev, v, i)
  }

  ghost predicate IdleOk(v: Vec) {
    |v.groups| == |v.frees| &&
    forall i | v.active <= i < |v.groups| :: v.groups[i].count == 0 && v.groups[i].free == NIL && v.frees[i] == []
  }

  /** Every element's node is a used node of an active group. */
  ghost predicate Housed(v: Vec, order: seq<Addr>) {
    forall k | 0 <= k < |order| :: HousedAt(v, order[k])
  }

  ghost predicate HousedAt(v: Vec, a: Addr) { exists i :: Slot(v, i, a) }

  /** Every used node holds an element or is on its group's free list. */
  ghost predicate Complete(v: Vec, order: seq<Addr>) {
    |v.groups| == |v.frees| && forall i, a | Slot(v, i, a) :: a in order || a in v.frees[i]
  }

  ghost function Live(s: seq<Addr>, g: Group): nat {
    if s == [] then 0 else Live(s[..|s| - 1], g) + (if In(s[|s| - 1], g) then 1 else 0)
  }

  ghost predicate CountsOk(v: Vec, order: seq<Addr>) {
    v.active <= |v.groups| && forall i | 0 <= i < v.active :: v.groups[i].count == Live(order, v.groups[i])
  }

  ghost predicate Books(next: Links, prev: Links, v: Vec, order: seq<Addr>) {
    && Shape(v) && FreesOk(next, prev, v) && IdleOk(v)
    && Housed(v, order) && Complete(v, order) && CountsOk(v, order)
  }

  lemma {:induction false} LiveConcat(s: seq<Addr>, t: seq<Addr>, g: Group)
    ensures Live(s + t, g) == Live(s, g) + Live(t, g)
  {
    if t == [] {
      assert s + t == s;
    } else {
      assert (s + t)[..|s + t| - 1] == s + t[..|t| - 1];
      LiveConcat(s, t[..|t| - 1], g);
    }
  }

  lemma LivePlus(s: seq<Addr>, q: nat, n: Addr, g: Group)
    requires q <= |s|
    ensures Live(Plus(s, q, n), g) == Live(s, g) + (if In(n, g) then 1 else 0)
  {
    LiveConcat(s[..q], s[q..], g);
    LiveConcat(s[..q] + [n], s[q..], g);
    LiveConcat(s[..q], [n], g);
    assert s == s[..q] + s[q..];
    assert Live([n], g) == Live([], g) + (if In(n, g) then 1 else 0);
  }

  lemma LiveMinus(s: seq<Addr>, q: nat, g: Group)
    requires q < |s|
    ensures Live(Minus(s, q), g) == Live(s, g) - (if In(s[q], g) then 1 else 0)
  {
    assert s == Plus(Minus(s, q), q, s[q]);
    LivePlus(Minus(s, q), q, s[q], g);
  }

  lemma {:induction false} LiveNone(s: seq<Addr>, g: Group)
    ensures Live(s, g) == 0 <==> forall k | 0 <= k < |s| :: !In(s[k], g)
  {
    if s != [] { LiveNone(s[..|s| - 1], g); }
  }

  lemma {:induction false} ChainFrame(next: Links, prev: Links, next': Links, prev': Links, head: Addr, fl: seq<Addr>)
    requires Chain(next, prev, head, fl)
    requires forall a | a in fl :: a in next && a in prev ==>
      a in next' && next'[a] == next[a] && a in prev' && prev'[a] == prev[a]
    ensures Chain(next', prev', head, fl)
    decreases |fl|
  {
    if fl != [] { ChainFrame(next, prev, next', prev', prev[head], fl[1..]); }
  }

  lemma {:induction false} ChainMarked(next: Links, prev: Links, head: Addr, fl: seq<Addr>, a: Addr)
    requires Chain(next, prev, head, fl) && a in fl
    ensures a in next && next[a] == NIL && a in prev
    decreases |fl|
  {
    if a != fl[0] { ChainMarked(next, prev, prev[head], fl[1..], a); }
  }

  /** Touching no free node keeps the free lists. */
  lemma FreesFrame(next: Links, prev: Links, next': Links, prev': Links, v: Vec)
    requires FreesOk(next, prev, v)
    requires forall i, a | 0 <= i < v.active && a in v.frees[i] ::
               a in next && a in prev ==> a in next' && next'[a] == next[a] && a in prev' && prev'[a] == prev[a]
    ensures FreesOk(next', prev', v)
  {
    forall i | 0 <= i < v.active
      ensures FreeOk(next', prev', v, i)
    {
      assert FreeOk(next, prev, v, i);
      ChainFrame(next, prev, next', prev', v.groups[i].free, v.frees[i]);
    }
  }

  /** A node in the ring is on no free list. */
  lemma RingNotFree(next: Links, prev: Links, v: Vec, loop: seq<Addr>, i: nat, a: Addr)
    requires FreesOk(next, prev, v) && Linked(next, prev, loop) && NIL !in loop
    requires i < v.active && a in v.frees[i]
    ensures a !in loop
  {
    assert FreeOk(next, prev, v, i);
    ChainMarked(next, prev, v.groups[i].free, v.frees[i], a);
    if a in loop {
      var k: nat :| k < |loop| && loop[k] == a;
      RingAt(next, prev, loop, k);
    }
  }

  /** The active groups grow by one, either the first idle one or a new one at the end. */
  lemma Advance(next: Links, prev: Links, v: Vec, order: seq<Addr>, v': Vec)
    requires Books(next, prev, v, order)
    requires v.active > 0 ==> v.last == v.groups[v.active - 1].base + v.groups[v.active - 1].size
    requires v'.active == v.active + 1 <= |v'.groups| && Ranges(v'.groups) && v'.last == v'.groups[v.active].base
    requires |v'.frees| == |v'.groups| && v.groups <= v'.groups && v.frees <= v'.frees &&
      IdleOk(v'.(active := v.active))
    ensures Books(next, prev, v', order)
  {
    forall i | 0 <= i < v.active
      ensures Used(v', i) == Used(v, i) && v'.groups[i] == v.groups[i] && v'.frees[i] == v.frees[i]
    {
    }
    assert forall i, a | 0 <= i < v.active :: Slot(v', i, a) == Slot(v, i, a);
    AdvanceCounts(v, order, v');
    AdvanceFrees(next, prev, v, v');
    assert Housed(v', order) by {
      forall k | 0 <= k < |order|
        ensures HousedAt(v', order[k])
      {
        assert HousedAt(v, order[k]);
        var i :| Slot(v, i, order[k]);
        assert Slot(v', i, order[k]);
      }
    }
  }

  ghost predicate SameSlots(v: Vec, v': Vec, n: nat) {
    && n <= v.active <= |v.groups| == |v.frees| && n <= v'.active <= |v'.groups| == |v'.frees|
    && (forall i | 0 <= i < n :: v'.groups[i] == v.groups[i] && v'.frees[i] == v.frees[i] && Used(v', i) == Used(v, i))
  }

  lemma AdvanceFrees(next: Links, prev: Links, v: Vec, v': Vec)
    requires FreesOk(next, prev, v) && SameSlots(v, v', v.active) && v'.active == v.active + 1
    requires var i := v.active;
      Used(v', i) == 0 && v'.groups[i].count == 0 && v'.groups[i].free == NIL && v'.frees[i] == []
    ensures FreesOk(next, prev, v')
  {
    forall i | 0 <= i < v'.active
      ensures FreeOk(next, prev, v', i)
    {
      if i < v.active { assert FreeOk(next, prev, v, i); }
    }
  }

  lemma AdvanceCounts(v: Vec, order: seq<Addr>, v': Vec)
    requires Housed(v, order) && CountsOk(v, order) && SameSlots(v, v', v.active) && v'.active == v.active + 1
    requires Shape(v) && Ranges(v'.groups) && v'.groups[v.active].count == 0
    ensures CountsOk(v', order)
  {
    var i := v.active;
    forall k | 0 <= k < |order|
      ensures !In(order[k], v'.groups[i])
    {
      assert HousedAt(v, order[k]);
      var j :| Slot(v, j, order[k]);
      assert Apart(v'.groups[j], v'.groups[i]);
    }
    LiveNone(order, v'.groups[i]);
  }

  ghost predicate SameSpans(v: Vec, v': Vec) {
    && |v'.groups| == |v.groups| && |v'.frees| == |v.frees| && v'.active == v.active
    && forall i | 0 <= i < |v.groups| :: v'.groups[i].base == v.groups[i].base && v'.groups[i].size == v.groups[i].size
  }

  lemma {:induction false} LiveSpan(s: seq<Addr>, g: Group, h: Group)
    requires g.base == h.base && g.size == h.size
    ensures Live(s, g) == Live(s, h)
  {
    if s != [] { LiveSpan(s[..|s| - 1], g, h); }
  }

  /** A used node of group k, new or taken off the free list, comes to hold an element. */
  lemma GainNode(v: Vec, v': Vec, order: seq<Addr>, p: nat, n: Addr, k: nat)
    requires Shape(v) && Shape(v') && SameSpans(v, v') && p <= |order| && Slot(v', k, n)
    requires forall i, a | Slot(v, i, a) :: Slot(v', i, a)
    requires forall i, a | Slot(v', i, a) && a != n :: Slot(v, i, a)
    requires forall i, a | 0 <= i < |v.frees| && a in v.frees[i] && a != n :: a in v'.frees[i]
    requires forall i | 0 <= i < v.active :: v'.groups[i].count == v.groups[i].count + (if i == k then 1 else 0)
    requires Housed(v, order) && Complete(v, order) && CountsOk(v, order)
    ensures Housed(v', Plus(order, p, n)) && Complete(v', Plus(order, p, n)) && CountsOk(v', Plus(order, p, n))
  {
    hide Shape, Complete, CountsOk, Slot;
    GainComplete(v, v', order, p, n, k);
    GainCounts(v, v', order, p, n, k);
    var order' := Plus(order, p, n);
    forall j | 0 <= j < |order'|
      ensures HousedAt(v', order'[j])
    {
      if j != p {
        assert HousedAt(v, order'[j]);
        var i :| Slot(v, i, order'[j]);
        assert Slot(v', i, order'[j]);
      }
    }
  }

  lemma GainComplete(v: Vec, v': Vec, order: seq<Addr>, p: nat, n: Addr, k: nat)
    requires SameSpans(v, v') && p <= |order|
    requires forall i, a | Slot(v', i, a) && a != n :: Slot(v, i, a)
    requires forall i, a | 0 <= i < |v.frees| && a in v.frees[i] && a != n :: a in v'.frees[i]
    requires Complete(v, order)
    ensures Complete(v', Plus(order, p, n))
  {
    var order' := Plus(order, p, n);
    forall i, a | Slot(v', i, a)
      ensures a in order' || a in v'.frees[i]
    {
      if a == n {
        assert order'[p] == a;
      } else if a in order {
        var j :| 0 <= j < |order| && order[j] == a;
        assert order'[if j < p then j else j + 1] == a;
      }
    }
  }

  lemma GainCounts(v: Vec, v': Vec, order: seq<Addr>, p: nat, n: Addr, k: nat)
    requires Shape(v') && SameSpans(v, v') && p <= |order| && Slot(v', k, n)
    requires forall i | 0 <= i < v.active :: v'.groups[i].count == v.groups[i].count + (if i == k then 1 else 0)
    requires CountsOk(v, order)
    ensures CountsOk(v', Plus(order, p, n))
  {
    hide Live;
    SlotIn(v', k, n);
    forall i | 0 <= i < v'.active
      ensures v'.groups[i].count == Live(Plus(order, p, n), v'.groups[i])
    {
      LivePlus(order, p, n, v'.groups[i]);
      LiveSpan(order, v.groups[i], v'.groups[i]);
      InOnly(v'.groups, k, i, n);
    }
  }

  lemma InOnly(groups: seq<Group>, k: nat, i: nat, n: Addr)
    requires Ranges(groups) && k < |groups| && i < |groups| && In(n, groups[k])
    ensures In(n, groups[i]) <==> i == k
  {
  }

  /** The p-th element's node, in group k, goes onto the free list. */
  lemma LoseNode(v: Vec, v': Vec, order: seq<Addr>, p: nat, k: nat)
    requires Shape(v) && SameSpans(v, v') && p < |order| && Slot(v, k, order[p])
    requires forall i, a :: Slot(v', i, a) == Slot(v, i, a)
    requires forall i, a | 0 <= i < |v.frees| && a in v.frees[i] :: a in v'.frees[i]
    requires k < |v'.frees| && order[p] in v'.frees[k]
    requires forall i | 0 <= i < v.active :: v'.groups[i].count == v.groups[i].count - (if i == k then 1 else 0)
    requires Housed(v, order) && Complete(v, order) && CountsOk(v, order)
    ensures Housed(v', Minus(order, p)) && Complete(v', Minus(order, p)) && CountsOk(v', Minus(order, p))
  {
    hide Shape, Complete, CountsOk, Slot;
    LoseComplete(v, v', order, p, k);
    LoseCounts(v, v', order, p, k);
    var order' := Minus(order, p);
    forall j | 0 <= j < |order'|
      ensures HousedAt(v', order'[j])
    {
      assert HousedAt(v, order'[j]);
      var i :| Slot(v, i, order'[j]);
      assert Slot(v', i, order'[j]);
    }
  }

  lemma LoseComplete(v: Vec, v': Vec, order: seq<Addr>, p: nat, k: nat)
    requires Shape(v) && SameSpans(v, v') && p < |order| && Slot(v, k, order[p])
    requires forall i, a | Slot(v', i, a) :: Slot(v, i, a)
    requires forall i, a | 0 <= i < |v.frees| && a in v.frees[i] :: a in v'.frees[i]
    requires k < |v'.frees| && order[p] in v'.frees[k] && Complete(v, order)
    ensures Complete(v', Minus(order, p))
  {
    hide Shape;
    var order' := Minus(order, p);
    forall i, a | Slot(v', i, a)
      ensures a in order' || a in v'.frees[i]
    {
      if a == order[p] {
        SlotHome(v, i, k, a);
      } else if a in order {
        var j :| 0 <= j < |order| && order[j] == a;
        assert order'[if j < p then j else j - 1] == a;
      }
    }
  }

  lemma LoseCounts(v: Vec, v': Vec, order: seq<Addr>, p: nat, k: nat)
    requires Shape(v) && SameSpans(v, v') && p < |order| && Slot(v, k, order[p])
    requires forall i | 0 <= i < v.active :: v'.groups[i].count == v.groups[i].count - (if i == k then 1 else 0)
    requires CountsOk(v, order)
    ensures CountsOk(v', Minus(order, p))
  {
    hide Live;
    SlotIn(v, k, order[p]);
    forall i | 0 <= i < v'.active
      ensures v'.groups[i].count == Live(Minus(order, p), v'.groups[i])
    {
      LiveMinus(order, p, v.groups[i]);
      LiveSpan(Minus(order, p), v.groups[i], v'.groups[i]);
      InOnly(v.groups, k, i, order[p]);
    }
  }

  lemma SlotIn(v: Vec, i: nat, a: Addr)
    requires Shape(v) && Slot(v, i, a)
    ensures In(a, v.groups[i])
  {
  }

  lemma SlotHome(v: Vec, i: nat, k: nat, a: Addr)
    requires Shape(v) && Slot(v, i, a) && Slot(v, k, a)
    ensures i == k
  {
    OneHome(v.groups, i, k, a);
  }

  /** Only group k's free list changes. */
  lemma FreesOne(next: Links, prev: Links, next': Links, prev': Links, v: Vec, v': Vec, k: nat)
    requires FreesOk(next, prev, v) && SameSpans(v, v') && k < v.active
    requires forall i | 0 <= i < v.active && i != k ::
               v'.groups[i] == v.groups[i] && v'.frees[i] == v.frees[i] && Used(v', i) == Used(v, i)
    requires forall i, a | 0 <= i < v.active && i != k && a in v.frees[i] ::
               a in next && a in prev ==> a in next' && next'[a] == next[a] && a in prev' && prev'[a] == prev[a]
    requires FreeOk(next', prev', v', k)
    ensures FreesOk(next', prev', v')
  {
    forall i | 0 <= i < v.active
      ensures FreeOk(next', prev', v', i)
    {
      if i != k {
        assert FreeOk(next, prev, v, i);
        ChainFrame(next, prev, next', prev', v.groups[i].free, v.frees[i]);
        assert forall a :: Slot(v', i, a) == Slot(v, i, a);
      }
    }
  }

  /** The first node never used yet comes to hold an element. */
  lemma Place(next: Links, prev: Links, next': Links, prev': Links, v: Vec, order: seq<Addr>, p: nat, v': Vec)
    requires Books(next, prev, v, order) && v.active > 0 && p <= |order|
    requires forall i, a | 0 <= i < v.active && a in v.frees[i] ::
               a in next && a in prev ==> a in next' && next'[a] == next[a] && a in prev' && prev'[a] == prev[a]
    requires var g := v.groups[v.active - 1]; v.last < g.base + g.size
    requires v' ==
      v.(groups := v.groups[v.active - 1 := v.groups[v.active - 1].(count := v.groups[v.active - 1].count + 1)],
        last := v.last + 1)
    ensures Books(next', prev', v', Plus(order, p, v.last))
  {
    var b := v.active - 1;
    FreesFrame(next, prev, next', prev', v);
    assert forall i, a :: Slot(v', i, a) == (Slot(v, i, a) || (i == b && a == v.last));
    assert FreeOk(next', prev', v', b) by {
      assert FreeOk(next', prev', v, b);
    }
    FreesOne(next', prev', next', prev', v, v', b);
    GainNode(v, v', order, p, v.last, b);
  }

  /** The head of group k's free list comes to hold an element. */
  lemma Reuse(next: Links, prev: Links, next': Links, prev': Links, v: Vec, order: seq<Addr>, p: nat, k: nat, v': Vec)
    requires Books(next, prev, v, order) && k < v.active && v.frees[k] != [] && p <= |order| && v.groups[k].free in prev
    requires forall i, a | 0 <= i < v.active && a in v.frees[i] && a != v.groups[k].free ::
               a in next && a in prev ==> a in next' && next'[a] == next[a] && a in prev' && prev'[a] == prev[a]
    requires v' ==
      v.(groups := v.groups[k := v.groups[k].(free := prev[v.groups[k].free], count := v.groups[k].count + 1)],
                      frees := v.frees[k := v.frees[k][1..]])
    ensures Books(next', prev', v', Plus(order, p, v.groups[k].free))
  {
    hide Housed, Complete, CountsOk, FreesOk;
    var n, fl := v.groups[k].free, v.frees[k];
    KnowFree(next, prev, v, k);
    assert forall i, a :: Slot(v', i, a) == Slot(v, i, a);
    PopFree(next, prev, next', prev', v, k, v');
    FreeApart(next, prev, v, k, n);
    FreesOne(next, prev, next', prev', v, v', k);
    GainNode(v, v', order, p, n, k);
  }

  lemma KnowFree(next: Links, prev: Links, v: Vec, k: nat)
    requires FreesOk(next, prev, v) && k < v.active
    ensures FreeOk(next, prev, v, k)
  {
  }

  lemma PopFree(next: Links, prev: Links, next': Links, prev': Links, v: Vec, k: nat, v': Vec)
    requires k < v.active <= |v.groups| == |v.frees| && FreeOk(next, prev, v, k) && v.frees[k] != [] &&
      v.groups[k].free in prev
    requires forall a | a in v.frees[k] && a != v.groups[k].free ::
               a in next && a in prev ==> a in next' && next'[a] == next[a] && a in prev' && prev'[a] == prev[a]
    requires v' ==
      v.(groups := v.groups[k := v.groups[k].(free := prev[v.groups[k].free], count := v.groups[k].count + 1)],
                      frees := v.frees[k := v.frees[k][1..]])
    ensures FreeOk(next', prev', v', k) && Slot(v, k, v.groups[k].free)
  {
    var n, fl := v.groups[k].free, v.frees[k];
    assert n == fl[0];
    ChainFrame(next, prev, next', prev', prev[n], fl[1..]);
    assert forall a :: Slot(v', k, a) == Slot(v, k, a);
  }

  lemma FreeApart(next: Links, prev: Links, v: Vec, k: nat, n: Addr)
    requires FreesOk(next, prev, v) && Shape(v) && k < v.active && Slot(v, k, n)
    ensures forall i, a | 0 <= i < v.active && i != k && a in v.frees[i] :: a != n
  {
    forall i, a | 0 <= i < v.active && i != k && a in v.frees[i]
      ensures a != n
    {
      assert FreeOk(next, prev, v, i);
      if a == n { SlotHome(v, i, k, a); }
    }
  }

  /** The p-th element's node, in group k, is erased while the group keeps other elements. */
  lemma Release(next: Links, prev: Links, next': Links, prev': Links, v: Vec, order: seq<Addr>, p: nat, k: nat, v': Vec)
    requires Books(next, prev, v, order) && p < |order| && k < v.active && Slot(v, k, order[p]) && v.groups[k].count > 0
    requires forall i, a | 0 <= i < v.active && a in v.frees[i] ::
               a != order[p] &&
                 (a in next && a in prev ==> a in next' && next'[a] == next[a] && a in prev' && prev'[a] == prev[a])
    requires order[p] in next' && next'[order[p]] == NIL && order[p] in prev' && prev'[order[p]] == v.groups[k].free
    requires v' == v.(groups := v.groups[k := v.groups[k].(free := order[p], count := v.groups[k].count - 1)],
                      frees := v.frees[k := [order[p]] + v.frees[k]])
    ensures Books(next', prev', v', Minus(order, p))
  {
    hide Housed, Complete, CountsOk, FreesOk;
    KnowFree(next, prev, v, k);
    assert forall i, a :: Slot(v', i, a) == Slot(v, i, a);
    PushFree(next, prev, next', prev', v, k, order[p], v');
    FreesOne(next, prev, next', prev', v, v', k);
    LoseNode(v, v', order, p, k);
  }

  lemma PushFree(next: Links, prev: Links, next': Links, prev': Links, v: Vec, k: nat, n: Addr, v': Vec)
    requires k < v.active <= |v.groups| == |v.frees| && FreeOk(next, prev, v, k) && Slot(v, k, n) &&
      v.groups[k].count > 0
    requires forall a | a in v.frees[k] ::
               a != n && (a in next && a in prev ==>
                 a in next' && next'[a] == next[a] && a in prev' && prev'[a] == prev[a])
    requires n in next' && next'[n] == NIL && n in prev' && prev'[n] == v.groups[k].free
    requires v' == v.(groups := v.groups[k := v.groups[k].(free := n, count := v.groups[k].count - 1)],
                      frees := v.frees[k := [n] + v.frees[k]])
    ensures FreeOk(next', prev', v', k)
  {
    var fl := v.frees[k];
    ChainFrame(next, prev, next', prev', v.groups[k].free, fl);
    assert ([n] + fl)[1..] == fl;
    assert forall a :: Slot(v', k, a) == Slot(v, k, a);
  }

  /** Place i of the shorter vector is place Skip(k, i) of the longer one. */
  function Skip(k: nat, i: int): int { if i < k then i else i + 1 }

  /** v' is v without group k, whose last element's node has gone: it was removed or became idle. */
  ghost predicate Dropped(v: Vec, v': Vec, k: nat) {
    && k < v.active <= |v.groups| == |v.frees| && v'.active == v.active - 1 <= |v'.groups| == |v'.frees|
    && forall i | 0 <= i < v'.active ::
      && v'.groups[i] == v.groups[Skip(k, i)] && v'.frees[i] == v.frees[Skip(k, i)] &&
        Used(v', i) == Used(v, Skip(k, i))
  }

  lemma DropSlots(v: Vec, v': Vec, k: nat)
    requires Dropped(v, v', k)
    ensures forall i: int, a | i < v'.active :: Slot(v', i, a) == Slot(v, Skip(k, i), a)
  {
    hide Used;
  }

  lemma DropFrees(next: Links, prev: Links, next': Links, prev': Links, v: Vec, v': Vec, k: nat)
    requires Dropped(v, v', k) && FreesOk(next, prev, v)
    requires forall i, a | 0 <= i < v.active && a in v.frees[i] ::
               a in next && a in prev ==> a in next' && next'[a] == next[a] && a in prev' && prev'[a] == prev[a]
    ensures FreesOk(next', prev', v')
  {
    FreesFrame(next, prev, next', prev', v);
    hide Chain;
    DropSlots(v, v', k);
    forall i | 0 <= i < v'.active
      ensures FreeOk(next', prev', v', i)
    {
      assert FreeOk(next', prev', v, Skip(k, i));
    }
  }

  lemma DropNodes(v: Vec, v': Vec, k: nat, order: seq<Addr>, p: nat)
    requires Dropped(v, v', k) && Shape(v) && p < |order| && Slot(v, k, order[p]) && v.groups[k].count == 1
    requires Housed(v, order) && Complete(v, order) && CountsOk(v, order)
    ensures Housed(v', Minus(order, p)) && Complete(v', Minus(order, p)) && CountsOk(v', Minus(order, p))
  {
    hide Shape, Slot, Live, CountsOk;
    var order' := Minus(order, p);
    DropSlots(v, v', k);
    DropCounts(v, v', k, order, p);
    forall j | 0 <= j < |order'|
      ensures HousedAt(v', order'[j])
    {
      assert HousedAt(v, order'[j]);
      var i :| Slot(v, i, order'[j]);
      KnowSlot(v, i, order'[j]);
      if i == k { SlotIn(v, i, order'[j]); }
      assert Slot(v', if i < k then i else i - 1, order'[j]);
    }
    DropComplete(v, v', k, order, p);
  }

  lemma DropComplete(v: Vec, v': Vec, k: nat, order: seq<Addr>, p: nat)
    requires Dropped(v, v', k) && Shape(v) && p < |order| && Slot(v, k, order[p]) && Complete(v, order)
    ensures Complete(v', Minus(order, p))
  {
    hide Shape;
    var order' := Minus(order, p);
    DropSlots(v, v', k);
    forall i, a | Slot(v', i, a)
      ensures a in order' || a in v'.frees[i]
    {
      assert Slot(v, Skip(k, i), a);
      if a == order[p] {
        SlotHome(v, Skip(k, i), k, a);
      } else if a in order {
        var j :| 0 <= j < |order| && order[j] == a;
        assert order'[if j < p then j else j - 1] == a;
      }
    }
  }

  lemma KnowSlot(v: Vec, i: int, a: Addr)
    requires Slot(v, i, a)
    ensures 0 <= i < v.active <= |v.groups|
  {
  }

  lemma DropCounts(v: Vec, v': Vec, k: nat, order: seq<Addr>, p: nat)
    requires Dropped(v, v', k) && Shape(v) && p < |order| && Slot(v, k, order[p]) && v.groups[k].count == 1
    requires CountsOk(v, order)
    ensures CountsOk(v', Minus(order, p))
    ensures forall j | 0 <= j < |order| - 1 :: !In(Minus(order, p)[j], v.groups[k])
  {
    hide Live;
    SlotIn(v, k, order[p]);
    LiveMinus(order, p, v.groups[k]);
    LiveNone(Minus(order, p), v.groups[k]);
    forall i | 0 <= i < v'.active
      ensures v'.groups[i].count == Live(Minus(order, p), v'.groups[i])
    {
      LiveMinus(order, p, v'.groups[i]);
      InOnly(v.groups, k, Skip(k, i), order[p]);
    }
  }

  /** The group of the p-th element held nothing else. */
  lemma Drop(next: Links, prev: Links, next': Links, prev': Links, v: Vec, order: seq<Addr>, p: nat, k: nat, v': Vec)
    requires Books(next, prev, v, order) && p < |order| && k < v.active && Slot(v, k, order[p]) &&
      v.groups[k].count == 1
    requires forall i, a | 0 <= i < v.active && a in v.frees[i] ::
               a in next && a in prev ==> a in next' && next'[a] == next[a] && a in prev' && prev'[a] == prev[a]
    requires Dropped(v, v', k) && Shape(v') && IdleOk(v')
    ensures Books(next', prev', v', Minus(order, p))
  {
    hide Housed, Complete, CountsOk, FreesOk, Shape, IdleOk, Dropped, Slot;
    DropFrees(next, prev, next', prev', v, v', k);
    DropNodes(v, v', k, order, p);
  }

  ghost function SumLen(s: seq<seq<Addr>>): nat {
    if s == [] then 0 else SumLen(s[..|s| - 1]) + |s[|s| - 1]|
  }

  lemma {:induction false} SumConcat(s: seq<seq<Addr>>, t: seq<seq<Addr>>)
    ensures SumLen(s + t) == SumLen(s) + SumLen(t)
  {
    if t == [] {
      assert s + t == s;
    } else {
      assert (s + t)[..|s + t| - 1] == s + t[..|t| - 1];
      SumConcat(s, t[..|t| - 1]);
    }
  }

  lemma SumUpdate(s: seq<seq<Addr>>, k: nat, fl: seq<Addr>)
    requires k < |s|
    ensures SumLen(s[k := fl]) == SumLen(s) - |s[k]| + |fl|
    ensures SumLen(s[..k] + s[k + 1..]) == SumLen(s) - |s[k]|
  {
    var l, r := s[..k], s[k + 1..];
    assert s == l + [s[k]] + r && s[k := fl] == l + [fl] + r;
    assert [s[k]][..0] == [] && [fl][..0] == [];
    SumConcat(l + [s[k]], r);
    SumConcat(l, [s[k]]);
    SumConcat(l + [fl], r);
    SumConcat(l, [fl]);
    SumConcat(l, r);
  }

  lemma {:induction false} SumZero(s: seq<seq<Addr>>)
    ensures SumLen(s) == 0 <==> forall i | 0 <= i < |s| :: s[i] == []
  {
    if s != [] { SumZero(s[..|s| - 1]); }
  }

  // ---------------------------------------------------------------- dropping a group from the vector

  function Cut<A>(s: seq<A>, k: nat): (r: seq<A>)
    requires k < |s|
    ensures |r| == |s| - 1 && forall i | 0 <= i < |r| :: r[i] == s[Skip(k, i)]
  {
    s[..k] + s[k + 1..]
  }

  lemma RangesCut(groups: seq<Group>, k: nat, g: Group)
    requires Ranges(groups) && k < |groups| && g.base == groups[k].base && g.size == groups[k].size
    ensures Ranges(Cut(groups, k)) && Ranges(Cut(groups, k) + [g])
  {
    var cut := Cut(groups, k);
    forall i, j | 0 <= i < j < |cut|
      ensures Apart(cut[i], cut[j])
    {
      assert Apart(groups[Skip(k, i)], groups[Skip(k, j)]);
    }
    forall i | 0 <= i < |cut|
      ensures Apart(cut[i], g)
    {
      var l := Skip(k, i);
      assert Apart(groups[if l < k then l else k], groups[if l < k then k else l]);
    }
  }

  lemma RangesUpdate(groups: seq<Group>, k: nat, g: Group)
    requires Ranges(groups) && k < |groups| && g.base == groups[k].base && g.size == groups[k].size
    ensures Ranges(groups[k := g])
  {
    var groups' := groups[k := g];
    forall i, j | 0 <= i < j < |groups'|
      ensures Apart(groups'[i], groups'[j])
    {
      assert Apart(groups[i], groups[j]);
    }
  }

  lemma SumAppendNone(s: seq<seq<Addr>>)
    ensures SumLen(s + [[]]) == SumLen(s)
  {
    assert (s + [[]])[..|s|] == s;
  }

  lemma CutRemove(v: Vec, k: nat, v': Vec)
    requires Shape(v) && IdleOk(v) && k + 1 < v.active
    requires v' == Vec(Cut(v.groups, k), v.active - 1, v.last, Cut(v.frees, k))
    ensures Shape(v') && IdleOk(v') && Dropped(v, v', k) && SumLen(v'.frees) == SumLen(v.frees) - |v.frees[k]|
  {
    hide Ranges, SumLen;
    SumUpdate(v.frees, k, []);
    RangesCut(v.groups, k, v.groups[k]);
  }

  lemma CutMove(v: Vec, k: nat, v': Vec)
    requires Shape(v) && IdleOk(v) && k + 1 < v.active
    requires v' ==
      Vec(Cut(v.groups, k) + [v.groups[k].(count := 0, free := NIL)], v.active - 1, v.last, Cut(v.frees, k) + [[]])
    ensures Shape(v') && IdleOk(v') && Dropped(v, v', k) && SumLen(v'.frees) == SumLen(v.frees) - |v.frees[k]|
  {
    hide Ranges, SumLen;
    SumUpdate(v.frees, k, []);
    SumAppendNone(Cut(v.frees, k));
    RangesCut(v.groups, k, v.groups[k].(count := 0, free := NIL));
  }

  lemma CutBack(v: Vec, v': Vec)
    requires Shape(v) && IdleOk(v) && v.active >= 2
    requires var k := v.active - 1;
             v' == Vec(v.groups[k := v.groups[k].(count := 0, free := NIL)], k,
               v.groups[k - 1].base + v.groups[k - 1].size, v.frees[k := []])
    ensures Shape(v') && IdleOk(v') && Dropped(v, v', v.active - 1)
    ensures SumLen(v'.frees) == SumLen(v.frees) - |v.frees[v.active - 1]|
  {
    var k := v.active - 1;
    assert v.groups[k - 1].size >= 1;
    hide Ranges, SumLen;
    SumUpdate(v.frees, k, []);
    RangesUpdate(v.groups, k, v.groups[k].(count := 0, free := NIL));
  }

  // ---------------------------------------------------------------- the list object

  ghost predicate Ringed(next: Links, prev: Links, begin: Addr, order: seq<Addr>) {
    && Linked(next, prev, [END] + order) && Distinct([END] + order) && NIL !in order
    && END in next && begin == next[END]
  }

  /** Links outside the given nodes are untouched. */
  ghost predicate Agree(next: Links, prev: Links, next': Links, prev': Links, but: seq<Addr>) {
    && (forall a | a in next && a !in but :: a in next' && next'[a] == next[a])
    && (forall a | a in prev && a !in but :: a in prev' && prev'[a] == prev[a])
  }

  lemma FreesUntouched(next: Links, prev: Links, next': Links, prev': Links, v: Vec, begin: Addr, order: seq<Addr>,
                       n: Addr)
    requires FreesOk(next, prev, v) && Ringed(next, prev, begin, order) &&
      Agree(next, prev, next', prev', [END] + order + [n])
    ensures forall i, a | 0 <= i < v.active && a in v.frees[i] :: a !in [END] + order
    ensures forall i, a | 0 <= i < v.active && a in v.frees[i] && a != n ::
              (a in next && a in prev ==> a in next' && next'[a] == next[a] && a in prev' && prev'[a] == prev[a])
  {
    forall i, a | 0 <= i < v.active && a in v.frees[i]
      ensures a !in [END] + order
    {
      RingNotFree(next, prev, v, [END] + order, i, a);
    }
  }

  /** The next node to hand out is neither in the list nor on a free list. */
  lemma LastUnused(next: Links, prev: Links, v: Vec, order: seq<Addr>)
    requires Shape(v) && FreesOk(next, prev, v) && Housed(v, order) && v.active > 0
    requires var g := v.groups[v.active - 1]; v.last < g.base + g.size
    ensures v.last >= 0 && v.last !in order && forall i | 0 <= i < v.active :: v.last !in v.frees[i]
  {
    var b := v.active - 1;
    forall i
      ensures !Slot(v, i, v.last)
    {
      if Slot(v, i, v.last) && i != b { OneHome(v.groups, i, b, v.last); }
    }
    forall i | 0 <= i < v.active
      ensures v.last !in v.frees[i]
    {
      assert FreeOk(next, prev, v, i);
    }
    forall k | 0 <= k < |order|
      ensures order[k] != v.last
    {
      assert HousedAt(v, order[k]);
    }
  }

  /** Memory the allocator may return for a group of up to `size` nodes. */
  ghost predicate Allocates(groups: seq<Group>, base: Addr, size: nat) {
    base >= 0 && forall i | 0 <= i < |groups| :: Apart(groups[i], Group(base, size, 0, NIL))
  }

  lemma RangesGrow(groups: seq<Group>, base: Addr, size: nat, max: nat)
    requires Ranges(groups) && Allocates(groups, base, max) && 1 <= size <= max
    ensures Ranges(groups + [Group(base, size, 0, NIL)])
  {
    forall i | 0 <= i < |groups|
      ensures Apart(groups[i], Group(base, size, 0, NIL))
    {
      assert Apart(groups[i], Group(base, max, 0, NIL));
    }
  }

  ghost predicate Stocked<T>(elem: map<Addr, T>, order: seq<Addr>) { forall i | 0 <= i < |order| :: order[i] in elem }

  function Max(a: int, b: int): int { if a < b then b else a }

  ghost function Elements<T>(elem: map<Addr, T>, order: seq<Addr>): seq<T>
    requires Stocked(elem, order)
  {
    seq(|order|, i requires 0 <= i < |order| => elem[order[i]])
  }

  class List<T> {
    const blockMin: nat
    const blockMax: nat
    var next: Links
    var prev: Links
    var elem: map<Addr, T>
    var groups: seq<Group>
    var back: nat                       // last_endpoint_group
    var searched: nat                   // last_searched_group
    var last: Addr                      // last_endpoint
    var begin: Addr
    var total: nat
    var erased: nat
    ghost var order: seq<Addr>          // the nodes holding elements, in list order
    ghost var frees: seq<seq<Addr>>     // each group's free list

    ghost function Active(): nat
      reads this
    {
      if last == NIL then 0 else back + 1
    }

    ghost function V(): Vec
      reads this
    {
      Vec(groups, Active(), last, frees)
    }

    ghost predicate Valid()
      reads this
    {
      && blockMin >= 1 && blockMax >= 1
      && Books(next, prev, V(), order) && Ringed(next, prev, begin, order)
      && (last == NIL ==> back == 0 && order == []) && (groups != [] ==> searched < |groups|)
      && (forall i | 0 <= i < Active() :: groups[i].count >= 1)
      && total == |order| && erased == SumLen(frees)
      && Stocked(elem, order)
    }

    ghost function Contents(): seq<T>
      requires Stocked(elem, order)
      reads this
    {
      Elements(elem, order)
    }

    constructor (min: nat, max: nat)
      requires 1 <= min && 1 <= max
      ensures Valid() && Contents() == [] && blockMin == min && blockMax == max
    {
      blockMin, blockMax := min, max;
      next, prev, elem := map[END := END], map[END := END], map[];
      groups, back, searched, last, begin, total, erased := [], 0, 0, NIL, END, 0, 0;
      order, frees := [], [];
    }

    /** Constructs the node n in front of `it`, the p-th element or the end, and links it in. */
    method Attach(n: Addr, it: Addr, x: T, ghost p: nat)
      requires Ringed(next, prev, begin, order) && p <= |order| && it == Ring([END] + order, p + 1)
      requires n !in [END] + order && n != NIL
      modifies `next, `prev, `elem, `begin, `order
      ensures order == Plus(old(order), p, n) && Ringed(next, prev, begin, order) && elem == old(elem)[n := x]
      ensures Agree(old(next), old(prev), next, prev, old([END] + order + [n]))
    {
      ghost var loop := [END] + order;
      RingAt(next, prev, loop, p);
      RingAt(next, prev, loop, 0);
      var before := prev[it];
      next, prev, elem := next[n := it], prev[n := before], elem[n := x];
      if it == begin { begin := n; }
      next := next[before := n];
      prev := prev[it := n];
      order := Plus(order, p, n);
      LinkInsert(old(next), old(prev), loop, p + 1, n, next, prev);
      assert [END] + order == Plus(loop, p + 1, n);
    }

    /** Makes the group behind the full back group the back group, a new one if there is none. */
    method Extend(chunk: Addr)
      requires Valid() && last != NIL && last == groups[back].base + groups[back].size
      requires Allocates(groups, chunk, blockMax)
      modifies `groups, `back, `last, `frees
      ensures Books(next, prev, V(), order) && last != NIL && last < groups[back].base + groups[back].size
      ensures |groups| >= |old(groups)| && SumLen(frees) == SumLen(old(frees))
      ensures forall i | 0 <= i < back :: groups[i].count >= 1
    {
      hide FreesOk, Housed, Complete, CountsOk, Ringed, SumLen;
      ghost var v := V();
      NotEmpty(v, order);
      if back == |groups| - 1 {
        var size := if total < blockMax then total else blockMax;
        RangesGrow(groups, chunk, size, blockMax);
        SumAppendNone(frees);
        groups := groups + [Group(chunk, size, 0, NIL)];
        frees := frees + [[]];
      }
      back := back + 1;
      last := groups[back].base;
      Advance(next, prev, v, order, V());
    }

    /** The branch of insert that takes the next node never used. */
    method InsertUnused(it: Addr, x: T, ghost p: nat) returns (n: Addr)
      requires Books(next, prev, V(), order) && last != NIL && last < groups[back].base + groups[back].size
      requires Ringed(next, prev, begin, order) && p <= |order| && it == Ring([END] + order, p + 1)
      modifies `next, `prev, `elem, `begin, `order, `groups, `last, `total
      ensures n == old(last) && order == Plus(old(order), p, n) && Ringed(next, prev, begin, order)
      ensures elem == old(elem)[n := x] && total == old(total) + 1
      ensures Books(next, prev, V(), order) && last != NIL &&
        groups == old(groups[back := groups[back].(count := groups[back].count + 1)])
    {
      hide FreesOk, Housed, Complete, CountsOk, Ringed, IdleOk;
      ghost var v := V();
      n := last;
      LastUnused(next, prev, v, order);
      Attach(n, it, x, p);
      groups := groups[back := groups[back].(count := groups[back].count + 1)];
      total := total + 1;
      last := last + 1;
      FreesUntouched(old(next), old(prev), next, prev, v, old(begin), old(order), n);
      Place(old(next), old(prev), next, prev, v, old(order), p, V());
    }

    /** The erased node to reuse for an insertion in front of `it`. */
    method Pick(it: Addr, ghost p: nat) returns (k: nat)
      requires Valid() && last != NIL && erased > 0 && p <= |order| && it == Ring([END] + order, p + 1)
      modifies `searched
      ensures k <= back && groups[k].free != NIL && searched < |groups|
    {
      hide FreesOk, Housed, Complete, CountsOk, Ringed, IdleOk, Linked, SumLen, Ranges, Bare;
      RingEnd(next, prev, begin, order, p);
      NotEmpty(V(), order);
      var place := if it != END then it else prev[END];
      KnowSearch(next, prev, V(), order, place);
      k, searched := NearestFree(groups, back + 1, searched, place);
    }

    /** The branch of insert that reuses an erased node, from a group near the place of insertion. */
    method InsertErased(it: Addr, x: T, ghost p: nat) returns (n: Addr)
      requires Valid() && last != NIL && erased > 0 && p <= |order| && it == Ring([END] + order, p + 1)
      modifies `next, `prev, `elem, `begin, `order, `groups, `searched, `frees, `total, `erased
      ensures Valid() && order == Plus(old(order), p, n) && elem == old(elem)[n := x] && n !in old(order)
    {
      hide Books, Ringed, Agree, SumLen, Stocked;
      ghost var v := V();
      KnowShape(next, prev, v, order);
      var k := Pick(it, p);
      n := groups[k].free;
      RingApart(next, prev, v, begin, order, k, n);
      var previous := prev[n];
      Attach(n, it, x, p);
      groups := groups[k := groups[k].(free := previous, count := groups[k].count + 1)];
      frees := frees[k := frees[k][1..]];
      ReuseLinked(old(next), old(prev), next, prev, v, old(begin), old(order), p, k, V());
      total := total + 1;
      erased := erased - 1;
      StockedPlus(old(elem), old(order), p, n, x);
    }

    /** An empty list may still own groups; if not, the first one is made. */
    method FirstGroup(chunk: Addr)
      requires Valid() && last == NIL && Allocates(groups, chunk, blockMin)
      modifies `groups, `frees, `back, `searched
      ensures groups != [] && back == 0 && searched < |groups| && groups[0].count == 0 && groups[0].base >= 0
      ensures Books(next, prev, Vec(groups, 1, groups[0].base, frees), []) && SumLen(frees) == SumLen(old(frees))
    {
      hide FreesOk, Housed, Complete, CountsOk, Ringed;
      ghost var v := V();
      if groups == [] {
        RangesGrow(groups, chunk, blockMin, blockMin);
        SumAppendNone(frees);
        groups := [Group(chunk, blockMin, 0, NIL)];
        frees := [[]];
        back, searched := 0, 0;
      }
      Advance(next, prev, v, order, Vec(groups, 1, groups[0].base, frees));
    }

    /** The branch of insert into an empty list. */
    method InsertFirst(x: T, chunk: Addr) returns (n: Addr)
      requires Valid() && last == NIL && Allocates(groups, chunk, blockMin)
      modifies this
      ensures Valid() && order == [n] && elem == old(elem)[n := x]
    {
      hide Books, SumLen, Ringed, Stocked;
      FirstGroup(chunk);
      ghost var v := Vec(groups, 1, groups[0].base, frees);
      n := groups[back].base;
      groups, total, begin := groups[back := groups[back].(count := 1)], 1, n;
      next, prev, elem := next[END := n][n := END], prev[END := n][n := END], elem[n := x];
      last, order := n + 1, [n];
      StockedOne(elem, n);
      FirstPlaced(old(next), old(prev), next, prev, old(begin), v, V(), n);
    }

    /**
     Inserts x in front of `it`, which is the p-th element's node or the end; `chunk` is where a
     new group would go.
     */
    method Insert(it: Addr, x: T, chunk: Addr, ghost p: nat) returns (n: Addr)
      requires Valid() && p <= |order| && it == (if p < |order| then order[p] else END)
      requires Allocates(groups, chunk, Max(blockMin, blockMax))
      modifies this
      ensures Valid() && n !in old(order) && order == Plus(old(order), p, n)
      ensures Contents() == old(Contents())[..p] + [x] + old(Contents())[p..]
      ensures elem == old(elem)[n := x]
    {
      KnowStocked();
      hide Valid, Elements, Allocates, Stocked;
      n := InsertAny(it, x, chunk, p);
      ElementsPlus(old(elem), old(order), p, n, x);
    }

    lemma KnowStocked()
      requires Valid()
      ensures Stocked(elem, order)
    {
    }

    /** The three branches of insert. */
    method InsertAny(it: Addr, x: T, chunk: Addr, ghost p: nat) returns (n: Addr)
      requires Valid() && p <= |order| && it == (if p < |order| then order[p] else END)
      requires Allocates(groups, chunk, Max(blockMin, blockMax))
      modifies this
      ensures Valid() && n !in old(order) && order == Plus(old(order), p, n) && elem == old(elem)[n := x]
    {
      hide Books, SumLen, Ringed, Stocked, Allocates;
      RingEnd(next, prev, begin, order, p);
      AllocatesLess(groups, chunk, Max(blockMin, blockMax), blockMin);
      AllocatesLess(groups, chunk, Max(blockMin, blockMax), blockMax);
      if last != NIL {
        if erased == 0 { n := InsertNew(it, x, chunk, p); } else { n := InsertErased(it, x, p); }
      } else {
        n := InsertFirst(x, chunk);
      }
    }

    /** The branch of insert with no erased node to reuse. */
    method InsertNew(it: Addr, x: T, chunk: Addr, ghost p: nat) returns (n: Addr)
      requires Valid() && last != NIL && p <= |order| && it == Ring([END] + order, p + 1)
      requires Allocates(groups, chunk, blockMax)
      modifies this
      ensures Valid() && n !in old(order) && order == Plus(old(order), p, n) && elem == old(elem)[n := x]
    {
      hide Books, SumLen, Ringed, Stocked;
      KnowShape(next, prev, V(), order);
      KnowBack(next, prev, V(), order);
      if last == groups[back].base + groups[back].size { Extend(chunk); }
      KnowShape(next, prev, V(), order);
      LastNew(next, prev, V(), order);
      n := InsertUnused(it, x, p);
      StockedPlus(old(elem), old(order), p, n, x);
    }

    /** Unlinks the p-th element's node. */
    method Detach(it: Addr, ghost p: nat) returns (following: Addr)
      requires Ringed(next, prev, begin, order) && p < |order| && it == order[p]
      modifies `next, `prev, `begin
      ensures following == Ring([END] + old(order), p + 2)
      ensures Unlinked(old(next), old(prev), next, prev, order, p) && begin == if p == 0 then following else old(begin)
    {
      ghost var loop := [END] + order;
      RingAt(next, prev, loop, p);
      RingAt(next, prev, loop, p + 1);
      RingEnd(next, prev, begin, order, p);
      assert p > 0 ==> loop[1] != loop[p + 1];
      var previous := prev[it];
      following := next[it];
      prev := prev[following := previous];
      next := next[previous := following];
      if it == begin { begin := following; }
    }

    /** An erase has unlinked the p-th element's node, in group k, and lowered the counts, and no more. */
    ghost predicate Midway(o: Before, p: nat, k: nat)
      reads this
    {
      && blockMin >= 1 && blockMax >= 1
      && p < |o.order| && k < o.v.active <= |o.v.groups| == |o.v.frees| && Was(o, p, k)
      && o.v.active == back + 1 && last == o.v.last && last != NIL && frees == o.v.frees && erased == SumLen(frees) + 1
      && order == Minus(o.order, p) && total == |order| && searched == k && Stocked(elem, order)
      && groups == o.v.groups[k := o.v.groups[k].(count := o.v.groups[k].count - 1)]
      && Unlinked(o.next, o.prev, next, prev, o.order, p)
      && begin == if p == 0 then Ring([END] + o.order, 2) else o.begin
    }

    /** The group keeps other elements: the node goes on its free list, marked by a null next. */
    method FreeNode(it: Addr, k: nat, ghost o: Before, ghost p: nat)
      requires Midway(o, p, k) && groups[k].count != 0 && it == o.order[p]
      modifies `next, `prev, `groups, `frees
      ensures Valid()
      ensures groups == old(groups)[k := old(groups)[k].(free := it)]
      ensures it in next && next[it] == NIL && it in prev && prev[it] == old(groups[k].free)
    {
      hide Books, SumLen, Ringed, Stocked, Unlinked, Was;
      KnowWas(o, p, k);
      UnlinkedMark(o.next, o.prev, next, prev, o.order, p, groups[k].free);
      next, prev := next[it := NIL], prev[it := groups[k].free];
      groups := groups[k := groups[k].(free := it)];
      frees := frees[k := [it] + frees[k]];
      EraseKeeps(o, next, prev, p, k, V());
      WasRinged(o, p, k, next, prev, begin);
    }

    /** remove: the group leaves the vector. */
    method Remove(k: nat)
      requires k < |groups|
      modifies `groups, `searched
      ensures groups == Cut(old(groups), k)
      ensures searched == if old(searched) >= k && old(searched) != 0 then old(searched) - 1 else old(searched)
    {
      if searched >= k && searched != 0 { searched := searched - 1; }
      groups := groups[..k] + groups[k + 1..];
    }

    /** move_to_back: the group is kept for later behind all others. */
    method MoveToBack(k: nat)
      requires k < |groups|
      modifies `groups, `searched
      ensures groups == Cut(old(groups), k) + [old(groups[k])]
      ensures searched == if old(searched) >= k && old(searched) != 0 then old(searched) - 1 else old(searched)
    {
      if searched >= k && searched != 0 { searched := searched - 1; }
      var group := groups[k];
      groups := groups[..k] + groups[k + 1..] + [group];
    }

    /**
     The group is empty and not the back group, which comes one place forward: a group of
     the largest size or near the back is kept idle at the end, any other is removed.
     */
    method DropGroup(k: nat, ghost o: Before, ghost p: nat)
      requires Midway(o, p, k) && groups[k].count == 0 && k < back
      modifies `groups, `searched, `frees, `back, `erased
      ensures Valid()
      ensures groups == if old(groups)[k].size == blockMax || k >= old(back) - 2
        then Cut(old(groups), k) + [old(groups)[k].(free := NIL)] else Cut(old(groups), k)
      ensures back == old(back) - 1 && erased == old(erased) - old(groups)[k].size
    {
      hide Valid, Was, Unlinked, Stocked;
      if groups[k].size == blockMax || k >= back - 2 { DropByMove(k, o, p); } else { DropByRemove(k, o, p); }
    }

    method DropByMove(k: nat, ghost o: Before, ghost p: nat)
      requires Midway(o, p, k) && groups[k].count == 0 && k < back
      modifies `groups, `searched, `frees, `back, `erased
      ensures Valid()
      ensures groups == Cut(old(groups), k) + [old(groups)[k].(free := NIL)]
      ensures back == old(back) - 1 && erased == old(erased) - old(groups)[k].size
    {
      hide Books, SumLen, Ringed, Stocked, Unlinked, Was;
      KnowWas(o, p, k);
      LastOne(o, p, k);
      back, erased, groups := back - 1, erased - groups[k].size, groups[k := groups[k].(free := NIL)];
      CutSame(o.v.groups, groups, k);
      MoveToBack(k);
      frees := Cut(frees, k) + [[]];
      EraseMoves(o, next, prev, p, k, V());
      WasRinged(o, p, k, next, prev, begin);
    }

    method DropByRemove(k: nat, ghost o: Before, ghost p: nat)
      requires Midway(o, p, k) && groups[k].count == 0 && k < back
      modifies `groups, `searched, `frees, `back, `erased
      ensures Valid()
      ensures groups == Cut(old(groups), k)
      ensures back == old(back) - 1 && erased == old(erased) - old(groups)[k].size
    {
      hide Books, SumLen, Ringed, Stocked, Unlinked, Was;
      KnowWas(o, p, k);
      LastOne(o, p, k);
      back, erased, groups := back - 1, erased - groups[k].size, groups[k := groups[k].(free := NIL)];
      CutSame(o.v.groups, groups, k);
      Remove(k);
      frees := Cut(frees, k);
      EraseRemoves(o, next, prev, p, k, V());
      WasRinged(o, p, k, next, prev, begin);
    }

    /** The back group is empty and others are left: it stays, idle, behind the new back group, which is full. */
    method DropBackGroup(k: nat, ghost o: Before, ghost p: nat)
      requires Midway(o, p, k) && groups[k].count == 0 && k == back && total != 0
      modifies `groups, `frees, `back, `erased, `last
      ensures Valid()
      ensures groups == old(groups)[k := old(groups)[k].(free := NIL)] && back == old(back) - 1
      ensures last == groups[back].base + groups[back].size && erased == old(erased) - (old(last) - old(groups)[k].base)
    {
      hide Books, SumLen, Ringed, Stocked, Unlinked, Was;
      KnowWas(o, p, k);
      LastOne(o, p, k);
      MoreGroups(o, p, k);
      back := back - 1;
      groups := groups[k := groups[k].(free := NIL)];
      erased := erased - (last - groups[k].base);
      last := groups[back].base + groups[back].size;
      frees := frees[k := []];
      EraseBack(o, next, prev, p, V());
      WasRinged(o, p, k, next, prev, begin);
    }

    /** The end of clear: no elements, no erased nodes. */
    method Reset()
      requires blockMin >= 1 && blockMax >= 1 && Ranges(groups) && |frees| == |groups| &&
        (groups != [] ==> searched < |groups|)
      requires IdleOk(Vec(groups, 0, NIL, frees)) && back == 0
      modifies `next, `prev, `last, `begin, `total, `erased, `order
      ensures Valid() && order == []
    {
      hide Books, SumLen, Ringed, Ranges, IdleOk;
      next, prev, last, begin, total, erased, order := next[END := END], prev[END := END], NIL, END, 0, 0, [];
      EmptyRing(old(next), old(prev));
      EmptyBooks(next, prev, V());
    }

    /** Destroys every element exactly once, and empties the list; the groups are kept. */
    method Clear() returns (destroyed: seq<Addr>)
      requires Valid()
      modifies this
      ensures Valid() && order == []
      ensures Distinct(destroyed) && forall a :: a in destroyed <==> a in old(order)
    {
      destroyed := [];
      if last != NIL {
        if total != 0 { destroyed := ClearGroups(); }
        Reset();
      }
    }

    /** The last element is gone. */
    method DropLastGroup(k: nat, ghost o: Before, ghost p: nat)
      requires Midway(o, p, k) && groups[k].count == 0 && k == back && total == 0
      modifies `next, `prev, `last, `begin, `total, `erased, `order, `groups, `frees, `back
      ensures Valid() && order == []
    {
      OneGroup(o, p, k);
      hide Books, SumLen, Ringed, Stocked, Unlinked, Was, Ranges;
      groups := groups[k := groups[k].(free := NIL)];
      frees := frees[k := []];
      back := 0;
      RangesUpdate(o.v.groups, k, groups[k]);
      Reset();
    }

    /** The first half of erase: finds the group, lowers the counts and unlinks the node. */
    method Unlink(it: Addr, ghost p: nat) returns (k: nat, r: Addr)
      requires Valid() && p < |order| && it == order[p]
      modifies `next, `prev, `begin, `total, `erased, `searched, `groups, `order
      ensures Midway(old(Before(next, prev, begin, V(), order)), p, k)
      ensures r == Ring([END] + old(order), p + 2)
    {
      hide Books, SumLen, Ringed, Stocked, Elements, Unlinked, Was;
      ghost var o := Before(next, prev, begin, V(), order);
      KnowHome(o, p);
      k := FindGroup(groups, back + 1, searched, it);
      HomeIs(o, p, k);
      ElementsMinus(elem, order, p);
      r := Detach(it, p);
      total, erased, searched := total - 1, erased + 1, k;
      groups := groups[k := groups[k].(count := groups[k].count - 1)];
      order := Minus(order, p);
    }

    /** Erases the p-th element; the result is the node of the element behind it, or the end. */
    method Erase(it: Addr, ghost p: nat) returns (r: Addr)
      requires Valid() && p < |order| && it == order[p]
      modifies this
      ensures Valid() && order == Minus(old(order), p) && r == (if p < |order| then order[p] else END)
      ensures Contents() == old(Contents())[..p] + old(Contents())[p + 1..]
      ensures elem == old(elem)
    {
      hide Books, SumLen, Ringed, Stocked, Elements, Unlinked, Was;
      ghost var o := Before(next, prev, begin, V(), order);
      ElementsMinus(elem, order, p);
      var k;
      k, r := Unlink(it, p);
      if groups[k].count != 0 {
        FreeNode(it, k, o, p);
      } else if k != back {
        DropGroup(k, o, p);
      } else if total != 0 {
        DropBackGroup(k, o, p);
      } else {
        DropLastGroup(k, o, p);
      }
    }

    /** Runs the destructor on every element, group by group, and empties the groups. */
    method ClearGroups() returns (destroyed: seq<Addr>)
      requires Valid() && last != NIL
      modifies `groups, `frees, `back, `searched
      ensures Ranges(groups) && |frees| == |groups| && groups != [] && searched == back == 0
      ensures IdleOk(Vec(groups, 0, NIL, frees))
      ensures Distinct(destroyed) && forall a :: a in destroyed <==> a in order
    {
      hide Books, SumLen, Ringed, Stocked;
      ghost var v := V();
      KnowShape(next, prev, v, order);
      KnowBack(next, prev, v, order);
      destroyed := [];
      var i := 0;
      while i <= back
        modifies `groups
        invariant i <= back + 1 && Emptied(v.groups, groups, i) && Destroyed(v, order, destroyed, i)
      {
        ClearsGroup(next, prev, v, begin, order, i);
        var d := DestroyNodes(next, groups[i], if i != back then groups[i].base + groups[i].size else last);
        DestroyedMore(next, prev, v, begin, order, destroyed, i, d);
        destroyed := destroyed + d;
        groups := groups[i := groups[i].(free := NIL, count := 0)];
        i := i + 1;
      }
      DestroyedAll(next, prev, v, order, destroyed);
      back, searched := 0, 0;
      frees := seq(|groups|, _ => []);
      EmptiedIdle(next, prev, v, order, groups, frees);
    }
  }

  lemma EmptyRing(next: Links, prev: Links)
    ensures Ringed(next[END := END], prev[END := END], END, [])
  {
    var none: seq<Addr> := [];
    assert [END] + none == [END];
  }

  lemma EmptyBooks(next: Links, prev: Links, v: Vec)
    requires v.active == 0 && Ranges(v.groups) && |v.frees| == |v.groups| && IdleOk(v)
    ensures Books(next, prev, v, []) && SumLen(v.frees) == 0
  {
    SumZero(v.frees);
  }

  /** The destructor loop over a group's nodes below `end`: if some are erased, it skips those with a null next. */
  method DestroyNodes(next: Links, g: Group, end: Addr) returns (d: seq<Addr>)
    requires g.base <= end && forall a | g.base <= a < end :: a in next
    ensures Distinct(d) && forall a :: a in d <==> g.base <= a < end && (end - g.base == g.count || next[a] != NIL)
  {
    d := [];
    var node := g.base;
    while node != end
      invariant g.base <= node <= end && Distinct(d)
      invariant forall a :: a in d <==> g.base <= a < node && (end - g.base == g.count || next[a] != NIL)
      decreases end - node
    {
      if end - g.base == g.count || next[node] != NIL {
        assert forall a :: a in d + [node] <==> a in d || a == node;
        DistinctConcat(d, [node]);
        d := d + [node];
      }
      node := node + 1;
    }
  }

  /** The first n groups have been emptied. */
  ghost predicate Emptied(groups: seq<Group>, groups': seq<Group>, n: nat) {
    |groups'| == |groups| && n <= |groups| && forall i | 0 <= i < |groups| ::
      groups'[i] == if i < n then groups[i].(free := NIL, count := 0) else groups[i]
  }

  lemma EmptiedIdle(next: Links, prev: Links, v: Vec, order: seq<Addr>, groups: seq<Group>, frees: seq<seq<Addr>>)
    requires Books(next, prev, v, order) && Emptied(v.groups, groups, v.active)
    requires |frees| == |groups| && forall i | 0 <= i < |frees| :: frees[i] == []
    ensures Ranges(groups) && IdleOk(Vec(groups, 0, NIL, frees))
  {
    forall i, j | 0 <= i < j < |groups|
      ensures Apart(groups[i], groups[j])
    {
      assert Apart(v.groups[i], v.groups[j]);
    }
  }

  /** destroyed lists the elements' nodes in the first n groups. */
  ghost predicate Destroyed(v: Vec, order: seq<Addr>, destroyed: seq<Addr>, n: nat) {
    Distinct(destroyed) && forall a :: a in destroyed <==> a in order && SlotBelow(v, n, a)
  }

  ghost predicate SlotBelow(v: Vec, n: nat, a: Addr) { exists i | 0 <= i < n :: Slot(v, i, a) }

  lemma ClearsGroup(next: Links, prev: Links, v: Vec, begin: Addr, order: seq<Addr>, i: nat)
    requires Books(next, prev, v, order) && Ringed(next, prev, begin, order) && i < v.active
    ensures i < |v.groups| && Used(v, i) >= 0
    ensures forall a :: Slot(v, i, a) == (v.groups[i].base <= a < v.groups[i].base + Used(v, i))
    ensures forall a | Slot(v, i, a) ::
              a in next && (a in order <==> Used(v, i) == v.groups[i].count || next[a] != NIL)
  {
    assert FreeOk(next, prev, v, i);
    forall a | Slot(v, i, a)
      ensures a in next && (a in order <==> Used(v, i) == v.groups[i].count || next[a] != NIL)
    {
      var loop := [END] + order;
      if a in order {
        var j :| 0 <= j < |order| && order[j] == a;
        RingAt(next, prev, loop, j + 1);
        assert Ring(loop, j + 2) in loop;
      } else {
        ChainMarked(next, prev, v.groups[i].free, v.frees[i], a);
      }
    }
  }

  lemma DestroyedMore(next: Links, prev: Links, v: Vec, begin: Addr, order: seq<Addr>, destroyed: seq<Addr>, i: nat,
                      d: seq<Addr>)
    requires Books(next, prev, v, order) && i < v.active && Destroyed(v, order, destroyed, i)
    requires Distinct(d) && forall a :: a in d <==> a in order && Slot(v, i, a)
    ensures Destroyed(v, order, destroyed + d, i + 1)
  {
    hide Books, Slot, Distinct, SlotBelow;
    forall a
      ensures a in destroyed + d <==> a in order && SlotBelow(v, i + 1, a)
    {
      SlotBelowStep(v, i, a);
    }
    forall a | a in destroyed
      ensures a !in d
    {
      if a in d { SlotsApart(next, prev, v, order, i, a); }
    }
    DistinctConcat(destroyed, d);
  }

  lemma DistinctConcat(s: seq<Addr>, t: seq<Addr>)
    requires Distinct(s) && Distinct(t) && forall a | a in s :: a !in t
    ensures Distinct(s + t)
  {
    forall i, j | 0 <= i < j < |s + t|
      ensures (s + t)[i] != (s + t)[j]
    {
      if i < |s| <= j { assert s[i] in s && t[j - |s|] in t; }
    }
  }

  lemma SlotBelowStep(v: Vec, i: nat, a: Addr)
    ensures SlotBelow(v, i + 1, a) <==> SlotBelow(v, i, a) || Slot(v, i, a)
  {
    hide Slot;
    if SlotBelow(v, i + 1, a) {
      var j :| 0 <= j < i + 1 && Slot(v, j, a);
      assert j < i ==> SlotBelow(v, i, a);
    }
  }

  lemma SlotsApart(next: Links, prev: Links, v: Vec, order: seq<Addr>, i: nat, a: Addr)
    requires Books(next, prev, v, order) && Slot(v, i, a)
    ensures !SlotBelow(v, i, a)
  {
    if SlotBelow(v, i, a) {
      var j :| 0 <= j < i && Slot(v, j, a);
      SlotHome(v, j, i, a);
    }
  }

  lemma DestroyedAll(next: Links, prev: Links, v: Vec, order: seq<Addr>, destroyed: seq<Addr>)
    requires Books(next, prev, v, order) && Destroyed(v, order, destroyed, v.active)
    ensures forall a :: a in destroyed <==> a in order
  {
    forall k | 0 <= k < |order|
      ensures SlotBelow(v, v.active, order[k])
    {
      assert HousedAt(v, order[k]);
      var i :| Slot(v, i, order[k]);
    }
  }

  lemma KnowHome(o: Before, p: nat)
    requires Books(o.next, o.prev, o.v, o.order) && p < |o.order|
    ensures Ranges(o.v.groups) && 0 < o.v.active <= |o.v.groups| == |o.v.frees|
    ensures exists i | 0 <= i < o.v.active :: In(o.order[p], o.v.groups[i])
  {
    assert HousedAt(o.v, o.order[p]);
    var i :| Slot(o.v, i, o.order[p]);
    SlotIn(o.v, i, o.order[p]);
  }

  lemma HomeIs(o: Before, p: nat, k: nat)
    requires Books(o.next, o.prev, o.v, o.order) && Ringed(o.next, o.prev, o.begin, o.order)
    requires p < |o.order| && k < o.v.active <= |o.v.groups| && In(o.order[p], o.v.groups[k])
    requires forall i | 0 <= i < o.v.active :: o.v.groups[i].count >= 1
    ensures Was(o, p, k)
  {
    assert HousedAt(o.v, o.order[p]);
    var i :| Slot(o.v, i, o.order[p]);
    SlotIn(o.v, i, o.order[p]);
    OneHome(o.v.groups, i, k, o.order[p]);
  }

  /** Every active group holds an element, so the last element's group is the only active one. */
  lemma OneGroup(o: Before, p: nat, k: nat)
    requires p < |o.order| && Was(o, p, k) && |o.order| == 1
    ensures o.v.active == 1 && Ranges(o.v.groups) && IdleOk(o.v)
  {
    OnlyHome(o, p, k, 0);
    OnlyHome(o, p, k, o.v.active - 1);
  }

  lemma OnlyHome(o: Before, p: nat, k: nat, i: nat)
    requires p < |o.order| && Was(o, p, k) && |o.order| == 1 && i < o.v.active
    ensures i == k
  {
    LiveNone(o.order, o.v.groups[i]);
    SlotIn(o.v, k, o.order[p]);
    InOnly(o.v.groups, k, i, o.order[p]);
  }

  /** With more than one element and one of them alone in the back group, there is another group. */
  lemma MoreGroups(o: Before, p: nat, k: nat)
    requires p < |o.order| && Was(o, p, k) && o.v.groups[k].count == 1 && |o.order| > 1 && k + 1 == o.v.active
    ensures o.v.active >= 2 && o.v.groups[k - 1].base >= 0
  {
    var v, rest := o.v, Minus(o.order, p);
    SlotIn(v, k, o.order[p]);
    LiveMinus(o.order, p, v.groups[k]);
    LiveNone(rest, v.groups[k]);
    assert HousedAt(v, o.order[if p == 0 then 1 else 0]);
    var i :| Slot(v, i, rest[0]);
    if i == k { SlotIn(v, i, rest[0]); }
  }

  datatype Before = Before(next: Links, prev: Links, begin: Addr, v: Vec, order: seq<Addr>)

  /** Node order[p] taken out of the ring; its own links are left to the caller. */
  ghost predicate Unlinked(next: Links, prev: Links, next': Links, prev': Links, order: seq<Addr>, p: nat)
    requires p < |order|
  {
    var previous, following := Ring([END] + order, p), Ring([END] + order, p + 2);
    && (forall a | a in next && a != order[p] :: a in next' && next'[a] == if a == previous then following else next[a])
    && (forall a | a in prev && a != order[p] :: a in prev' && prev'[a] == if a == following then previous else prev[a])
  }

  lemma RingedMinus(next: Links, prev: Links, begin: Addr, order: seq<Addr>, p: nat, next': Links, prev': Links,
                    begin': Addr)
    requires Ringed(next, prev, begin, order) && p < |order| && Unlinked(next, prev, next', prev', order, p)
    requires begin' == if p == 0 then Ring([END] + order, 2) else begin
    ensures Ringed(next', prev', begin', Minus(order, p))
  {
    var loop := [END] + order;
    assert Minus(loop, p + 1) == [END] + Minus(order, p);
    LinkErase(next, prev, loop, p + 1, next', prev');
    RingAt(next, prev, loop, 0);
    RingAt(next', prev', Minus(loop, p + 1), 0);
  }

  lemma UnlinkedAgree(next: Links, prev: Links, next': Links, prev': Links, order: seq<Addr>, p: nat)
    requires p < |order| && Unlinked(next, prev, next', prev', order, p)
    ensures Agree(next, prev, next', prev', [END] + order + [order[p]])
  {
    var loop := [END] + order;
    assert Ring(loop, p) in loop && Ring(loop, p + 2) in loop && order[p] == loop[p + 1];
  }

  /** The list as an erase of the p-th element, in group k, found it. */
  ghost predicate Was(o: Before, p: nat, k: nat)
    requires p < |o.order|
  {
    && Books(o.next, o.prev, o.v, o.order) && Ringed(o.next, o.prev, o.begin, o.order)
    && k < o.v.active <= |o.v.groups| == |o.v.frees| && Slot(o.v, k, o.order[p])
    && (forall i | 0 <= i < o.v.active :: o.v.groups[i].count >= 1)
  }

  lemma KnowWas(o: Before, p: nat, k: nat)
    requires p < |o.order| && Was(o, p, k)
    ensures k < o.v.active <= |o.v.groups| == |o.v.frees|
    ensures forall i | 0 <= i < o.v.active :: o.v.groups[i].count >= 1
  {
  }

  lemma WasRinged(o: Before, p: nat, k: nat, next: Links, prev: Links, begin: Addr)
    requires p < |o.order| && Was(o, p, k) && Unlinked(o.next, o.prev, next, prev, o.order, p)
    requires begin == if p == 0 then Ring([END] + o.order, 2) else o.begin
    ensures Ringed(next, prev, begin, Minus(o.order, p))
  {
    RingedMinus(o.next, o.prev, o.begin, o.order, p, next, prev, begin);
  }

  lemma UnlinkedMark(next: Links, prev: Links, next': Links, prev': Links, order: seq<Addr>, p: nat, f: Addr)
    requires p < |order| && Unlinked(next, prev, next', prev', order, p)
    ensures Unlinked(next, prev, next'[order[p] := NIL], prev'[order[p] := f], order, p)
  {
  }

  lemma EraseUntouched(o: Before, next: Links, prev: Links, p: nat)
    requires FreesOk(o.next, o.prev, o.v) && Ringed(o.next, o.prev, o.begin, o.order) && p < |o.order|
    requires Unlinked(o.next, o.prev, next, prev, o.order, p)
    ensures forall i, a | 0 <= i < o.v.active && a in o.v.frees[i] ::
              && a != o.order[p]
              && (a in o.next && a in o.prev ==> a in next && next[a] == o.next[a] && a in prev && prev[a] == o.prev[a])
  {
    hide Agree, Ringed, Unlinked;
    UnlinkedAgree(o.next, o.prev, next, prev, o.order, p);
    FreesUntouched(o.next, o.prev, next, prev, o.v, o.begin, o.order, o.order[p]);
    forall i, a | 0 <= i < o.v.active && a in o.v.frees[i]
      ensures a != o.order[p]
    {
      assert a !in [END] + o.order && ([END] + o.order)[p + 1] == o.order[p];
    }
  }

  lemma EraseKeeps(o: Before, next: Links, prev: Links, p: nat, k: nat, v: Vec)
    requires p < |o.order| && Was(o, p, k) && Unlinked(o.next, o.prev, next, prev, o.order, p)
    requires var n := o.order[p]; n in next && next[n] == NIL && n in prev && prev[n] == o.v.groups[k].free
    requires v == o.v.(groups := o.v.groups[k := o.v.groups[k].(free := o.order[p], count := o.v.groups[k].count - 1)],
                       frees := o.v.frees[k := [o.order[p]] + o.v.frees[k]])
    ensures Books(next, prev, v, Minus(o.order, p)) && SumLen(v.frees) == SumLen(o.v.frees) + 1
  {
    hide FreesOk, Housed, Complete, CountsOk, Ringed, Shape, SumLen, Unlinked;
    EraseUntouched(o, next, prev, p);
    SumUpdate(o.v.frees, k, [o.order[p]] + o.v.frees[k]);
    Release(o.next, o.prev, next, prev, o.v, o.order, p, k, v);
  }

  /** A group with one element left has all its other used nodes on the free list. */
  lemma LastOne(o: Before, p: nat, k: nat)
    requires p < |o.order| && Was(o, p, k) && o.v.groups[k].count == 1
    ensures |o.v.frees[k]| + 1 == Used(o.v, k) && |o.v.frees[k]| <= SumLen(o.v.frees)
  {
    assert FreeOk(o.next, o.prev, o.v, k);
    SumUpdate(o.v.frees, k, []);
  }

  lemma CutSame(s: seq<Group>, t: seq<Group>, k: nat)
    requires |s| == |t| && k < |s| && forall i | 0 <= i < |s| && i != k :: s[i] == t[i]
    ensures Cut(s, k) == Cut(t, k)
  {
  }

  lemma EraseDrops(o: Before, next: Links, prev: Links, p: nat, k: nat, v: Vec)
    requires p < |o.order| && Was(o, p, k) && Unlinked(o.next, o.prev, next, prev, o.order, p)
    requires o.v.groups[k].count == 1 && Dropped(o.v, v, k) && Shape(v) && IdleOk(v)
    ensures Books(next, prev, v, Minus(o.order, p))
  {
    hide FreesOk, Housed, Complete, CountsOk, Ringed, Shape, Unlinked, Dropped, IdleOk;
    EraseUntouched(o, next, prev, p);
    Drop(o.next, o.prev, next, prev, o.v, o.order, p, k, v);
  }

  lemma EraseRemoves(o: Before, next: Links, prev: Links, p: nat, k: nat, v: Vec)
    requires p < |o.order| && Was(o, p, k) && Unlinked(o.next, o.prev, next, prev, o.order, p)
    requires o.v.groups[k].count == 1 && k + 1 < o.v.active
    requires v == Vec(Cut(o.v.groups, k), o.v.active - 1, o.v.last, Cut(o.v.frees, k))
    ensures Books(next, prev, v, Minus(o.order, p)) && SumLen(v.frees) == SumLen(o.v.frees) - |o.v.frees[k]|
  {
    hide FreesOk, Housed, Complete, CountsOk, Ringed, Shape, Unlinked, Dropped, IdleOk;
    CutRemove(o.v, k, v);
    EraseDrops(o, next, prev, p, k, v);
  }

  lemma EraseMoves(o: Before, next: Links, prev: Links, p: nat, k: nat, v: Vec)
    requires p < |o.order| && Was(o, p, k) && Unlinked(o.next, o.prev, next, prev, o.order, p)
    requires o.v.groups[k].count == 1 && k + 1 < o.v.active
    requires v ==
      Vec(Cut(o.v.groups, k) + [o.v.groups[k].(count := 0, free := NIL)], o.v.active - 1, o.v.last,
        Cut(o.v.frees, k) + [[]])
    ensures Books(next, prev, v, Minus(o.order, p)) && SumLen(v.frees) == SumLen(o.v.frees) - |o.v.frees[k]|
  {
    hide FreesOk, Housed, Complete, CountsOk, Ringed, Shape, Unlinked, Dropped, IdleOk;
    CutMove(o.v, k, v);
    EraseDrops(o, next, prev, p, k, v);
  }

  lemma BackBase(o: Before, p: nat)
    requires o.v.active >= 2 && p < |o.order| && Was(o, p, o.v.active - 1)
    ensures Shape(o.v) && IdleOk(o.v) && o.v.active <= |o.v.groups|
    ensures o.v.groups[o.v.active - 2].base >= 0 && o.v.groups[o.v.active - 2].size >= 1
  {
    hide FreesOk, Housed, Complete, CountsOk, Ringed;
  }

  lemma EraseBack(o: Before, next: Links, prev: Links, p: nat, v: Vec)
    requires o.v.active >= 2 && p < |o.order| && Was(o, p, o.v.active - 1) &&
      Unlinked(o.next, o.prev, next, prev, o.order, p)
    requires o.v.groups[o.v.active - 1].count == 1
    requires var k := o.v.active - 1;
             v == Vec(o.v.groups[k := o.v.groups[k].(count := 0, free := NIL)], k,
               o.v.groups[k - 1].base + o.v.groups[k - 1].size, o.v.frees[k := []])
    ensures Books(next, prev, v, Minus(o.order, p)) && v.last > 0
    ensures SumLen(v.frees) == SumLen(o.v.frees) - |o.v.frees[o.v.active - 1]|
  {
    hide FreesOk, Housed, Complete, CountsOk, Ringed, Shape, Unlinked, Dropped, IdleOk, Was, Books, SumLen;
    BackBase(o, p);
    CutBack(o.v, v);
    EraseDrops(o, next, prev, p, o.v.active - 1, v);
  }

  lemma KnowBack(next: Links, prev: Links, v: Vec, order: seq<Addr>)
    requires Books(next, prev, v, order) && v.active > 0
    ensures v.active <= |v.groups| && v.last <= v.groups[v.active - 1].base + v.groups[v.active - 1].size
  {
  }

  lemma LastNew(next: Links, prev: Links, v: Vec, order: seq<Addr>)
    requires Books(next, prev, v, order) && 0 < v.active <= |v.groups|
    requires v.last < v.groups[v.active - 1].base + v.groups[v.active - 1].size
    ensures v.last !in order
  {
    LastUnused(next, prev, v, order);
  }

  lemma AllocatesLess(groups: seq<Group>, base: Addr, size: nat, size': nat)
    requires Allocates(groups, base, size) && size' <= size
    ensures Allocates(groups, base, size')
  {
    forall i | 0 <= i < |groups|
      ensures Apart(groups[i], Group(base, size', 0, NIL))
    {
      assert Apart(groups[i], Group(base, size, 0, NIL));
    }
  }

  lemma StockedOne<T>(elem: map<Addr, T>, n: Addr)
    requires n in elem
    ensures Stocked(elem, [n])
  {
  }

  lemma FirstPlaced(next: Links, prev: Links, next': Links, prev': Links, begin: Addr, v: Vec, v': Vec, n: Addr)
    requires Books(next, prev, v, []) && v.active == 1 && v.last == n == v.groups[0].base && v.groups[0].count == 0
    requires v' == v.(groups := v.groups[0 := v.groups[0].(count := 1)], last := n + 1)
    requires Ringed(next, prev, begin, []) && next' == next[END := n][n := END] && prev' == prev[END := n][n := END]
    ensures Books(next', prev', v', [n]) && Ringed(next', prev', n, [n])
  {
    var order: seq<Addr> := [];
    assert [END] + order == [END];
    assert FreeOk(next, prev, v, 0) && v.frees[0] == [];
    assert Plus(order, 0, n) == [n] && Plus([END], 1, n) == [END, n] == [END] + [n];
    LinkInsert(next, prev, [END], 1, n, next', prev');
    Place(next, prev, next', prev', v, order, 0, v');
  }

  lemma ElementsPlus<T>(elem: map<Addr, T>, order: seq<Addr>, p: nat, n: Addr, x: T)
    requires Stocked(elem, order) && p <= |order| && n !in order
    ensures Stocked(elem[n := x], Plus(order, p, n))
    ensures Elements(elem[n := x], Plus(order, p, n)) == Elements(elem, order)[..p] + [x] + Elements(elem, order)[p..]
  {
  }

  lemma ElementsMinus<T>(elem: map<Addr, T>, order: seq<Addr>, p: nat)
    requires Stocked(elem, order) && p < |order|
    ensures Stocked(elem, Minus(order, p))
    ensures Elements(elem, Minus(order, p)) == Elements(elem, order)[..p] + Elements(elem, order)[p + 1..]
  {
  }

  /** The neighbours of the place of insertion. */
  lemma RingEnd(next: Links, prev: Links, begin: Addr, order: seq<Addr>, p: nat)
    requires Ringed(next, prev, begin, order) && p <= |order|
    ensures Ring([END] + order, p + 1) == if p < |order| then order[p] else END
    ensures END in prev && (order != [] ==> prev[END] in order) && (order == [] ==> prev[END] == END)
    ensures begin == if order == [] then END else order[0]
  {
    var loop := [END] + order;
    RingAt(next, prev, loop, |order|);
    RingAt(next, prev, loop, 0);
  }

  lemma RingApart(next: Links, prev: Links, v: Vec, begin: Addr, order: seq<Addr>, k: nat, n: Addr)
    requires Books(next, prev, v, order) && Ringed(next, prev, begin, order)
    requires k < v.active && n == v.groups[k].free != NIL
    ensures v.frees[k] != [] && n in v.frees[k] && n in prev && n !in [END] + order
  {
    assert FreeOk(next, prev, v, k);
    assert n == v.frees[k][0];
    RingNotFree(next, prev, v, [END] + order, k, n);
  }

  lemma KnowShape(next: Links, prev: Links, v: Vec, order: seq<Addr>)
    requires Books(next, prev, v, order)
    ensures v.active <= |v.groups| == |v.frees|
  {
  }

  lemma ReuseLinked(next: Links, prev: Links, next': Links, prev': Links, v: Vec, begin: Addr, order: seq<Addr>, p: nat,
                    k: nat, v': Vec)
    requires Books(next, prev, v, order) && Ringed(next, prev, begin, order) && p <= |order|
    requires k < v.active <= |v.groups| == |v.frees| && v.frees[k] != [] && v.groups[k].free in prev
    requires Agree(next, prev, next', prev', [END] + order + [v.groups[k].free])
    requires v' ==
      v.(groups := v.groups[k := v.groups[k].(free := prev[v.groups[k].free], count := v.groups[k].count + 1)],
                      frees := v.frees[k := v.frees[k][1..]])
    ensures Books(next', prev', v', Plus(order, p, v.groups[k].free)) && SumLen(v'.frees) == SumLen(v.frees) - 1
  {
    hide FreesOk, Housed, Complete, CountsOk, Ringed, Shape, Agree, SumLen;
    FreesUntouched(next, prev, next', prev', v, begin, order, v.groups[k].free);
    Reuse(next, prev, next', prev', v, order, p, k, v');
    SumUpdate(v.frees, k, v.frees[k][1..]);
  }

  /** What the search for an erased node needs. */
  lemma KnowSearch(next: Links, prev: Links, v: Vec, order: seq<Addr>, place: Addr)
    requires Books(next, prev, v, order) && place in order && SumLen(v.frees) > 0
    ensures exists i | 0 <= i < v.active :: In(place, v.groups[i])
    ensures (exists i :: Offers(v.groups, v.active, i)) && Bare(v.groups, v.active - 1, |v.groups|)
  {
    var j :| 0 <= j < |order| && order[j] == place;
    assert HousedAt(v, order[j]);
    var i :| Slot(v, i, place);
    SlotIn(v, i, place);
    SumZero(v.frees);
    var k :| 0 <= k < |v.frees| && v.frees[k] != [];
    assert FreeOk(next, prev, v, k);
    assert v.groups[k].free == v.frees[k][0] && Slot(v, k, v.frees[k][0]);
    assert Offers(v.groups, v.active, k);
  }

  lemma StockedPlus<T>(elem: map<Addr, T>, order: seq<Addr>, p: nat, n: Addr, x: T)
    requires Stocked(elem, order) && p <= |order|
    ensures Stocked(elem[n := x], Plus(order, p, n))
  {
  }

  lemma NotEmpty(v: Vec, order: seq<Addr>)
    requires CountsOk(v, order) && v.active > 0 && v.groups[0].count >= 1
    ensures order != []
  {
  }

  // ---------------------------------------------------------------- the counters add up

  ghost function SumCounts(groups: seq<Group>, n: nat): nat
    requires n <= |groups|
  {
    if n == 0 then 0 else SumCounts(groups, n - 1) + groups[n - 1].count
  }

  ghost function SumUsed(v: Vec, n: nat): int
    requires n <= v.active <= |v.groups|
  {
    if n == 0 then 0 else SumUsed(v, n - 1) + Used(v, n - 1)
  }

  ghost function SumLive(order: seq<Addr>, groups: seq<Group>, n: nat): nat
    requires n <= |groups|
  {
    if n == 0 then 0 else SumLive(order, groups, n - 1) + Live(order, groups[n - 1])
  }

  /** One more element counts once, in its own group. */
  lemma {:induction false} SumLiveStep(order: seq<Addr>, a: Addr, groups: seq<Group>, n: nat, k: nat)
    requires n <= |groups| && k < |groups| && Ranges(groups) && In(a, groups[k])
    ensures SumLive(order + [a], groups, n) == SumLive(order, groups, n) + (if k < n then 1 else 0)
    decreases n
  {
    if n > 0 {
      SumLiveStep(order, a, groups, n - 1, k);
      LivePlus(order, |order|, a, groups[n - 1]);
      assert Plus(order, |order|, a) == order + [a];
      InOnly(groups, k, n - 1, a);
    }
  }

  lemma {:induction false} SumLiveNone(groups: seq<Group>, n: nat)
    requires n <= |groups|
    ensures SumLive([], groups, n) == 0
  {
    if n > 0 { SumLiveNone(groups, n - 1); }
  }

  lemma {:induction false} SumLiveAll(v: Vec, order: seq<Addr>)
    requires Shape(v) && Housed(v, order)
    ensures SumLive(order, v.groups, v.active) == |order|
    decreases |order|
  {
    if order == [] {
      SumLiveNone(v.groups, v.active);
    } else {
      var rest, a := order[..|order| - 1], order[|order| - 1];
      assert HousedAt(v, a);
      var k :| Slot(v, k, a);
      SlotIn(v, k, a);
      assert order == rest + [a];
      SumLiveAll(v, rest);
      SumLiveStep(rest, a, v.groups, v.active, k);
    }
  }

  lemma {:induction false} SumLiveCounts(v: Vec, order: seq<Addr>, n: nat)
    requires CountsOk(v, order) && n <= v.active
    ensures SumCounts(v.groups, n) == SumLive(order, v.groups, n)
  {
    if n > 0 { SumLiveCounts(v, order, n - 1); }
  }

  lemma {:induction false} SumUsedSplits(next: Links, prev: Links, v: Vec, n: nat)
    requires FreesOk(next, prev, v) && n <= v.active
    ensures SumUsed(v, n) == SumCounts(v.groups, n) + SumLen(v.frees[..n])
  {
    if n > 0 {
      SumUsedSplits(next, prev, v, n - 1);
      assert FreeOk(next, prev, v, n - 1);
      assert v.frees[..n][..n - 1] == v.frees[..n - 1];
    }
  }

  /**
   The element counts of the active groups add up to the list's size, and the used nodes of
   the active groups are the elements and the erased nodes together.
   */
  lemma CountersAddUp(next: Links, prev: Links, v: Vec, order: seq<Addr>)
    requires Books(next, prev, v, order)
    ensures SumCounts(v.groups, v.active) == |order| && SumUsed(v, v.active) == |order| + SumLen(v.frees)
  {
    SumLiveAll(v, order);
    SumLiveCounts(v, order, v.active);
    SumUsedSplits(next, prev, v, v.active);
    assert v.frees == v.frees[..v.active] + v.frees[v.active..];
    SumConcat(v.frees[..v.active], v.frees[v.active..]);
    SumZero(v.frees[v.active..]);
  }
}
