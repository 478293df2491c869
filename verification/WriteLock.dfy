/**
 The write lock: a mutex that hands itself to its waiters by priority. LockState
 and LockStep are what it does, as a value; the classes do it with a heap.
 */
module WriteLocks {
  import opened Basics

  const URGENCY_CONTROL: int := -1
  const DEFAULT_URGENCY: int := 3
  const MAX_URGENCY: int := 7

  datatype Priority = Priority(urgency: int, incremental: bool, streamId: nat)

  /** What a stream writes with: its urgency is clipped to this range. */
  predicate StreamPriority(p: Priority) {
    0 <= p.urgency <= MAX_URGENCY
  }

  /** ready names the channel that is closed when the lock has been handed over. */
  datatype Waiter = Waiter(priority: Priority, order: nat, ready: nat)

  /** a is served ahead of b. */
  predicate Less(a: Waiter, b: Waiter) {
    if a.priority.urgency != b.priority.urgency then a.priority.urgency < b.priority.urgency
    else if a.priority.incremental != b.priority.incremental then !a.priority.incremental
    else a.order < b.order
  }

  /**
   w may be served while u waits: it is more urgent; or of the same urgency and not incremental
   while u is; or of the same urgency and kind, and first in line. Being first in line is a lower
   stream number, or for incremental writers an earlier arrival.
   */
  predicate GoesFirst(w: Waiter, u: Waiter) {
    || w.priority.urgency < u.priority.urgency
    || (w.priority.urgency == u.priority.urgency && !w.priority.incremental && u.priority.incremental)
    || (w.priority.urgency == u.priority.urgency && w.priority.incremental == u.priority.incremental
        && w.order <= u.order)
  }

  /** What the heap compares by says just that. */
  lemma {:induction false} LessMeans(w: Waiter, u: Waiter)
    ensures GoesFirst(w, u) <==> !Less(u, w)
  {
  }

  // ------------------------------------------------------------------- the heap

  function Parent(i: nat): nat
    requires i > 0
  {
    (i - 1) / 2
  }

  predicate Ordered(h: seq<Waiter>, i: nat)
    requires i < |h|
  {
    i > 0 ==> !Less(h[i], h[Parent(i)])
  }

  predicate IsHeap(h: seq<Waiter>) {
    forall i | 0 <= i < |h| :: Ordered(h, i)
  }

  function Swap(h: seq<Waiter>, i: nat, j: nat): (r: seq<Waiter>)
    requires i < |h| && j < |h|
    ensures |r| == |h| && multiset(r) == multiset(h)
  {
    SwapKeeps(h, i, j);
    h[i := h[j]][j := h[i]]
  }

  lemma {:induction false} SwapKeeps(h: seq<Waiter>, i: nat, j: nat)
    requires i < |h| && j < |h|
    ensures multiset(h[i := h[j]][j := h[i]]) == multiset(h)
  {
    var g := h[i := h[j]];
    assert multiset(g) == multiset(h) - multiset{h[i]} + multiset{h[j]};
    assert multiset(g[j := h[i]]) == multiset(g) - multiset{g[j]} + multiset{h[i]};
  }

  /** The root ranks first. */
  lemma {:induction false} RootFirst(h: seq<Waiter>, i: nat)
    requires IsHeap(h) && i < |h|
    ensures !Less(h[i], h[0])
    decreases i
  {
    if i > 0 {
      assert Ordered(h, i);
      RootFirst(h, Parent(i));
    }
  }

  /** In order but for j, which may rank ahead of its parent; its children do not rank ahead of that parent either. */
  ghost predicate Rising(h: seq<Waiter>, j: nat)
    requires j < |h|
  {
    && (forall i | 0 <= i < |h| && i != j :: Ordered(h, i))
    && (j > 0 ==> forall i | 0 < i < |h| && Parent(i) == j :: !Less(h[i], h[Parent(j)]))
  }

  /** In order but for the children of j, which may rank ahead of it; they do not rank ahead of its parent. */
  ghost predicate Sinking(h: seq<Waiter>, j: nat) {
    && (forall i | 0 < i < |h| && Parent(i) != j :: Ordered(h, i))
    && (0 < j < |h| ==> forall i | 0 < i < |h| && Parent(i) == j :: !Less(h[i], h[Parent(j)]))
  }

  lemma {:induction false} RisingStep(h: seq<Waiter>, j: nat)
    requires 0 < j < |h| && Rising(h, j) && Less(h[j], h[Parent(j)])
    ensures Rising(Swap(h, Parent(j), j), Parent(j))
  {
    var p := Parent(j);
    var g := Swap(h, p, j);
    forall i | 0 <= i < |g| && i != p ensures Ordered(g, i) {
      assert i != j ==> Ordered(h, i);
      assert p > 0 ==> Ordered(h, p);
    }
    if p > 0 {
      assert Ordered(h, p);
      forall i | 0 < i < |g| && Parent(i) == p ensures !Less(g[i], g[Parent(p)]) {
        assert i != j ==> Ordered(h, i);
      }
    }
  }

  /** No child of i ranks ahead of j, one of them. */
  ghost predicate LeadsChildren(h: seq<Waiter>, i: nat, j: nat) {
    0 < j < |h| && Parent(j) == i && forall k | 0 < k < |h| && Parent(k) == i :: !Less(h[k], h[j])
  }

  lemma {:induction false} FirstChild(h: seq<Waiter>, i: nat, j: nat)
    requires j < |h| && (j == 2 * i + 1 || j == 2 * i + 2)
    requires j == 2 * i + 1 && j + 1 < |h| ==> !Less(h[j + 1], h[j])
    requires j == 2 * i + 2 ==> Less(h[j], h[j - 1])
    ensures LeadsChildren(h, i, j)
  {
    assert forall k | 0 < k && Parent(k) == i :: k == 2 * i + 1 || k == 2 * i + 2;
  }

  lemma {:induction false} SinkingStep(h: seq<Waiter>, i: nat, j: nat)
    requires i < |h| && LeadsChildren(h, i, j) && Sinking(h, i) && Less(h[j], h[i])
    ensures Sinking(Swap(h, i, j), j)
  {
    var g := Swap(h, i, j);
    forall k | 0 < k < |g| && Parent(k) != j ensures Ordered(g, k) {
      assert Parent(k) != i ==> Ordered(h, k);
      assert i > 0 && k == i ==> Ordered(h, i);
    }
    forall k | 0 < k < |g| && Parent(k) == j ensures !Less(g[k], g[Parent(j)]) {
      assert Ordered(h, k);
    }
  }

  lemma {:induction false} SunkIsHeap(h: seq<Waiter>, i: nat, j: nat)
    requires i < |h| && Sinking(h, i) && LeadsChildren(h, i, j) && !Less(h[j], h[i])
    ensures IsHeap(h)
  {
    forall k | 0 <= k < |h| ensures Ordered(h, k) {
      if k > 0 && Parent(k) == i {
        assert !Less(h[k], h[j]);
      }
    }
  }

  lemma {:induction false} ChildlessIsHeap(h: seq<Waiter>, i: nat)
    requires Sinking(h, i) && 2 * i + 1 >= |h|
    ensures IsHeap(h)
  {
    forall k | 0 <= k < |h| ensures Ordered(h, k) {
      assert k > 0 ==> Parent(k) != i;
    }
  }

  lemma {:induction false} Appended(h: seq<Waiter>, w: Waiter)
    requires IsHeap(h)
    ensures Rising(h + [w], |h|)
  {
    var g := h + [w];
    forall i | 0 <= i < |g| && i != |h| ensures Ordered(g, i) {
      assert Ordered(h, i);
    }
  }

  /** The waiters, with the next to serve at the root. */
  class WaiterHeap {
    var items: seq<Waiter>

    constructor ()
      ensures items == []
    {
      items := [];
    }

    method Push(w: Waiter)
      requires IsHeap(items)
      modifies this
      ensures IsHeap(items) && multiset(items) == multiset(old(items)) + multiset{w}
    {
      hide Less;
      ghost var before := items;
      items := items + [w];
      var j: nat := |items| - 1;
      Appended(before, w);
      while j > 0 && Less(items[j], items[Parent(j)])
        invariant j < |items| && Rising(items, j)
        invariant multiset(items) == multiset(before) + multiset{w}
      {
        RisingStep(items, j);
        items := Swap(items, Parent(j), j);
        j := Parent(j);
      }
      assert Ordered(items, j);
    }

    /** Moves the root down to where it belongs. */
    method Down()
      requires Sinking(items, 0)
      modifies this
      ensures IsHeap(items) && multiset(items) == multiset(old(items))
    {
      hide Less, IsHeap, Sinking;
      var n := |items|;
      var i := 0;
      while 2 * i + 1 < n
        invariant n == |items| && (n > 0 ==> i < n) && Sinking(items, i)
        invariant multiset(items) == multiset(old(items))
        decreases n - i
      {
        var j := 2 * i + 1;
        if j + 1 < n && Less(items[j + 1], items[j]) {
          j := j + 1;
        }
        FirstChild(items, i, j);
        if !Less(items[j], items[i]) {
          SunkIsHeap(items, i, j);
          return;
        }
        SinkingStep(items, i, j);
        items := Swap(items, i, j);
        i := j;
      }
      ChildlessIsHeap(items, i);
    }

    /** Takes the root out: a waiter that none of the others ranks ahead of. */
    method Pop() returns (w: Waiter)
      requires IsHeap(items) && items != []
      modifies this
      ensures w in old(items) && forall u | u in old(items) :: GoesFirst(w, u)
      ensures IsHeap(items) && multiset(items) == multiset(old(items)) - multiset{w}
    {
      hide Less, IsHeap, Sinking;
      ghost var before := items;
      var n := |items| - 1;
      var h := Swap(items, 0, n);
      w := h[n];
      forall u | u in before ensures GoesFirst(w, u) {
        var i :| 0 <= i < |before| && before[i] == u;
        RootFirst(before, i);
        LessMeans(w, u);
      }
      Beheaded(before, h, h[..n]);
      items := h[..n];
      Down();
    }
  }

  lemma {:induction false} Beheaded(before: seq<Waiter>, h: seq<Waiter>, items: seq<Waiter>)
    requires IsHeap(before) && before != [] && h == Swap(before, 0, |before| - 1) && items == h[..|before| - 1]
    ensures Sinking(items, 0) && multiset(items) == multiset(before) - multiset{before[0]}
  {
    assert h == items + [before[0]];
    assert multiset(h) == multiset(items) + multiset{before[0]};
    forall k | 0 < k < |items| && Parent(k) != 0 ensures Ordered(items, k) {
      assert Ordered(before, k);
    }
  }

  // ---------------------------------------------------------- what the lock does

  /**
   waiting is in the order of arrival; made counts the channels; served is every
   waiter the lock was handed to. immediate counts those who got it without waiting
   and released those who gave it back.
   */
  datatype LockState = LockState(
    held: bool, arrivals: nat, waiting: seq<Waiter>, made: nat,
    served: seq<Waiter>, immediate: nat, released: nat)

  const FREE := LockState(false, 0, [], 0, [], 0, 0)

  /** None of the waiters ranks ahead of the k-th. */
  ghost predicate First(waiting: seq<Waiter>, k: nat) {
    k < |waiting| && forall u | u in waiting :: GoesFirst(waiting[k], u)
  }

  function Entering(s: LockState, p: Priority): Waiter {
    Waiter(p, if p.incremental then s.arrivals + 1 else p.streamId, s.made)
  }

  function Acquired(s: LockState, p: Priority): (LockState, Option<nat>) {
    if !s.held then (s.(held := true, immediate := s.immediate + 1), None)
    else
      (s.(arrivals := if p.incremental then s.arrivals + 1 else s.arrivals,
          waiting := s.waiting + [Entering(s, p)], made := s.made + 1),
       Some(s.made))
  }

  function Without(waiting: seq<Waiter>, k: nat): seq<Waiter>
    requires k < |waiting|
  {
    waiting[..k] + waiting[k + 1..]
  }

  /** The lock goes to the k-th waiter, or is free if there is none. */
  function Released(s: LockState, k: nat): LockState
    requires s.waiting != [] ==> k < |s.waiting|
  {
    if s.waiting == [] then s.(held := false, released := s.released + 1)
    else s.(waiting := Without(s.waiting, k), served := s.served + [s.waiting[k]], released := s.released + 1)
  }

  /** What a caller of Unlock sees: whose channel was closed. */
  function HandedTo(s: LockState, k: nat): Option<nat>
    requires s.waiting != [] ==> k < |s.waiting|
  {
    if s.waiting == [] then None else Some(s.waiting[k].ready)
  }

  class WriteLock {
    var held: bool
    var arrivals: nat
    const waiters: WaiterHeap
    /** How many channels were made; stands for making a new one. */
    var channels: nat
    ghost var state: LockState

    ghost predicate Valid()
      reads this, waiters
    {
      && held == state.held && arrivals == state.arrivals && channels == state.made
      && IsHeap(waiters.items) && multiset(waiters.items) == multiset(state.waiting)
      && LockInv(state)
    }

    constructor ()
      ensures Valid() && state == FREE && fresh(waiters)
    {
      held, arrivals, channels := false, 0, 0;
      waiters := new WaiterHeap();
      state := FREE;
      new;
      FreeInv();
    }

    /** Takes the lock if it is free. Otherwise ready is the channel to wait for. */
    method Acquire(p: Priority) returns (ready: Option<nat>)
      requires Valid()
      modifies this, waiters
      ensures Valid() && (state, ready) == Acquired(old(state), p)
    {
      hide LockInv;
      AcquiredInv(state, p);
      if !held {
        held := true;
        state := Acquired(state, p).0;
        return None;
      }
      var w := Waiter(p, p.streamId, channels);
      channels := channels + 1;
      if p.incremental {
        arrivals := arrivals + 1;
        w := w.(order := arrivals);
      }
      waiters.Push(w);
      ready := Some(w.ready);
      state := Acquired(state, p).0;
    }

    /** Control frames go ahead of all stream data. */
    method Lock() returns (ready: Option<nat>)
      requires Valid()
      modifies this, waiters
      ensures Valid() && (state, ready) == Acquired(old(state), Priority(URGENCY_CONTROL, true, 0))
    {
      ready := Acquire(Priority(URGENCY_CONTROL, true, 0));
    }

    /** Hands the lock to a waiter that ranks first, or releases it. */
    method Unlock() returns (handed: Option<nat>)
      requires Valid() && held
      modifies this, waiters
      ensures Valid()
      ensures exists k: nat ::
        && (old(state).waiting != [] ==> First(old(state).waiting, k))
        && state == Released(old(state), k) && handed == HandedTo(old(state), k)
    {
      hide LockInv, Less;
      SameMembers(waiters.items, state.waiting);
      if |waiters.items| == 0 {
        ReleasedInv(state, 0);
        held := false;
        state := Released(state, 0);
        return None;
      }
      var w := waiters.Pop();
      ghost var k :| 0 <= k < |state.waiting| && state.waiting[k] == w;
      assert First(state.waiting, k);
      ReleasedInv(state, k);
      WithoutMembers(state.waiting, k);
      state := Released(state, k);
      return Some(w.ready);
    }
  }

  lemma {:induction false} SameMembers(a: seq<Waiter>, b: seq<Waiter>)
    requires multiset(a) == multiset(b)
    ensures (forall w :: w in a <==> w in b) && |a| == |b|
  {
    assert forall w :: w in a <==> w in multiset(a);
    assert forall w :: w in b <==> w in multiset(b);
    assert |multiset(a)| == |a| && |multiset(b)| == |b|;
  }

  lemma {:induction false} WithoutMembers(waiting: seq<Waiter>, k: nat)
    requires k < |waiting|
    ensures multiset(Without(waiting, k)) == multiset(waiting) - multiset{waiting[k]}
    ensures forall w | w in Without(waiting, k) :: w in waiting
  {
    assert waiting == waiting[..k] + [waiting[k]] + waiting[k + 1..];
  }

  // --------------------------------------------------------------- every run

  /** Of one class: incremental writers of one urgency. */
  predicate TakeTurns(a: Waiter, b: Waiter) {
    a.priority.incremental && b.priority.incremental && a.priority.urgency == b.priority.urgency
  }

  /** Everyone who ever waited, in the order of being served, then of arrival. */
  function Everyone(s: LockState): seq<Waiter> {
    s.served + s.waiting
  }

  /** Among incremental writers, a lower place in line is an earlier arrival. */
  ghost predicate InTurn(all: seq<Waiter>) {
    forall u, v | u in all && v in all && u.priority.incremental && v.priority.incremental && u.order < v.order ::
      u.ready < v.ready
  }

  lemma {:induction false} InTurnMore(all: seq<Waiter>, w: Waiter)
    requires InTurn(all) && forall u | u in all ::
      u.ready < w.ready && (u.priority.incremental && w.priority.incremental ==> u.order < w.order)
    ensures InTurn(all + [w])
  {
  }

  lemma {:induction false} InTurnSame(all: seq<Waiter>, all': seq<Waiter>)
    requires InTurn(all) && forall u | u in all' :: u in all
    ensures InTurn(all')
  {
  }

  /** Places in line are stream numbers, or arrivals so far. */
  ghost predicate Numbered(all: seq<Waiter>, made: nat, arrivals: nat) {
    forall u | u in all ::
      && u.ready < made
      && (if u.priority.incremental then u.order <= arrivals else u.order == u.priority.streamId)
  }

  ghost predicate Distinct(all: seq<Waiter>) {
    forall i, j | 0 <= i < j < |all| :: all[i].ready != all[j].ready
  }

  ghost predicate TurnsKept(all: seq<Waiter>) {
    forall i, j | 0 <= i < j < |all| && TakeTurns(all[i], all[j]) :: all[i].order < all[j].order
  }

  /**
   The lock is held whenever someone waits; it was given out once more than given
   back exactly if it is held; no waiter is lost; and whoever takes turns does so in
   the order of arrival.
   */
  ghost predicate LockInv(s: LockState) {
    && (s.waiting != [] ==> s.held)
    && s.immediate + |s.served| == s.released + (if s.held then 1 else 0)
    && |Everyone(s)| == s.made
    && Numbered(Everyone(s), s.made, s.arrivals) && Distinct(Everyone(s)) && TurnsKept(Everyone(s))
    && InTurn(Everyone(s))
  }

  lemma {:induction false} FreeInv()
    ensures LockInv(FREE)
  {
  }

  lemma {:induction false} NumberedMore(all: seq<Waiter>, made: nat, arrivals: nat, w: Waiter, arrivals': nat)
    requires Numbered(all, made, arrivals) && Distinct(all) && TurnsKept(all) && w.ready == made
        && arrivals <= arrivals'
    requires if w.priority.incremental then arrivals < w.order <= arrivals' else w.order == w.priority.streamId
    ensures Numbered(all + [w], made + 1, arrivals') && Distinct(all + [w]) && TurnsKept(all + [w])
    ensures forall u | u in all ::
      u.ready < w.ready && (u.priority.incremental && w.priority.incremental ==> u.order < w.order)
  {
    forall i | 0 <= i < |all| ensures all[i] in all {
    }
  }

  lemma {:induction false} AcquiredInv(s: LockState, p: Priority)
    requires LockInv(s)
    ensures LockInv(Acquired(s, p).0)
  {
    hide InTurn, Numbered, Distinct, TurnsKept;
    var s' := Acquired(s, p).0;
    if s.held {
      var w := Entering(s, p);
      NumberedMore(Everyone(s), s.made, s.arrivals, w, s'.arrivals);
      InTurnMore(Everyone(s), w);
      assert Everyone(s') == Everyone(s) + [w];
    } else {
      assert Everyone(s') == Everyone(s);
    }
  }

  lemma {:induction false} ReleasedInv(s: LockState, k: nat)
    requires LockInv(s) && s.held && (s.waiting != [] ==> First(s.waiting, k))
    ensures LockInv(Released(s, k))
  {
    hide InTurn, Numbered, Distinct, TurnsKept;
    var s' := Released(s, k);
    if s.waiting == [] {
      assert Everyone(s') == Everyone(s);
    } else {
      Moved(s, k);
    }
  }

  /** Where the i-th of everyone stood before the k-th of those waiting was served, after n others. */
  function Stood(i: nat, n: nat, k: nat): nat {
    if i < n then i else if i == n then n + k else if i <= n + k then i - 1 else i
  }

  lemma {:induction false} MovedAt(s: LockState, k: nat, i: nat)
    requires s.held && k < |s.waiting| && i < |Everyone(s)|
    ensures |Everyone(Released(s, k))| == |Everyone(s)|
    ensures Stood(i, |s.served|, k) < |Everyone(s)|
    ensures Everyone(Released(s, k))[i] == Everyone(s)[Stood(i, |s.served|, k)]
  {
  }

  /** Those who arrived before the waiter that ranks first do not take turns with it. */
  lemma {:induction false} NoTurnAhead(s: LockState, k: nat)
    requires TurnsKept(Everyone(s)) && First(s.waiting, k)
    ensures forall j | |s.served| <= j < |s.served| + k :: !TakeTurns(Everyone(s)[j], s.waiting[k])
  {
    var n := |s.served|;
    assert Everyone(s)[n + k] == s.waiting[k];
    forall j | n <= j < n + k ensures !TakeTurns(Everyone(s)[j], s.waiting[k]) {
      assert Everyone(s)[j] == s.waiting[j - n] && s.waiting[j - n] in s.waiting;
    }
  }

  /** Taking one from the middle to an earlier place keeps the turns, if no one it passes takes turns with it. */
  lemma {:induction false} Reordered(all: seq<Waiter>, all': seq<Waiter>, n: nat, k: nat)
    requires Distinct(all) && TurnsKept(all) && |all'| == |all| && n + k < |all|
    requires forall i | 0 <= i < |all| :: all'[i] == all[Stood(i, n, k)]
    requires forall j | n <= j < n + k :: !TakeTurns(all[j], all[n + k])
    ensures Distinct(all') && TurnsKept(all') && forall u | u in all' :: u in all
  {
  }

  /** The waiter served takes its place behind those served; no one else's place changes. */
  lemma {:induction false} Moved(s: LockState, k: nat)
    requires LockInv(s) && s.held && First(s.waiting, k)
    ensures LockInv(Released(s, k))
  {
    NoTurnAhead(s, k);
    hide InTurn, GoesFirst, Distinct, TurnsKept, TakeTurns, Stood;
    var s' := Released(s, k);
    var n := |s.served|;
    MovedAt(s, k, n);
    forall i | 0 <= i < |Everyone(s)| ensures Everyone(s')[i] == Everyone(s)[Stood(i, n, k)] {
      MovedAt(s, k, i);
    }
    assert Everyone(s)[n + k] == s.waiting[k];
    Reordered(Everyone(s), Everyone(s'), n, k);
    InTurnSame(Everyone(s), Everyone(s'));
  }

  datatype Event = Acquiring(p: Priority) | Releasing(k: nat)

  ghost predicate Possible(s: LockState, e: Event) {
    e.Releasing? ==> s.held && (s.waiting != [] ==> First(s.waiting, e.k))
  }

  ghost function LockStep(s: LockState, e: Event): LockState
    requires Possible(s, e)
  {
    match e
    case Acquiring(p) => Acquired(s, p).0
    case Releasing(k) => Released(s, k)
  }

  ghost predicate LockRun(s: LockState, events: seq<Event>, s': LockState)
    decreases events
  {
    if events == [] then s' == s else Possible(s, events[0]) && LockRun(LockStep(s, events[0]), events[1..], s')
  }

  lemma {:induction false} LockStepInv(s: LockState, e: Event)
    requires LockInv(s) && Possible(s, e)
    ensures LockInv(LockStep(s, e))
  {
    hide LockInv;
    match e
    case Acquiring(p) => AcquiredInv(s, p);
    case Releasing(k) => ReleasedInv(s, k);
  }

  /** One owner at a time, and the lock is held while anyone waits; in every run. */
  lemma {:induction false} OneOwner(events: seq<Event>, s: LockState)
    requires LockRun(FREE, events, s)
    ensures s.immediate + |s.served| - s.released == (if s.held then 1 else 0)
    ensures s.waiting != [] ==> s.held
    ensures |s.served| + |s.waiting| == s.made
  {
    FreeInv();
    RunInv(FREE, events, s);
  }

  lemma {:induction false} RunInv(s: LockState, events: seq<Event>, s': LockState)
    requires LockInv(s) && LockRun(s, events, s')
    ensures LockInv(s')
    decreases events
  {
    hide LockInv, Possible, LockStep;
    if events != [] {
      LockStepInv(s, events[0]);
      RunInv(LockStep(s, events[0]), events[1..], s');
    }
  }

  /** Incremental writers of one urgency are served strictly in the order of arrival, in every run. */
  lemma {:induction false} TurnsInOrder(events: seq<Event>, s: LockState, i: nat, j: nat)
    requires LockRun(FREE, events, s) && i < j < |s.served| && TakeTurns(s.served[i], s.served[j])
    ensures s.served[i].order < s.served[j].order
  {
    FreeInv();
    RunInv(FREE, events, s);
    assert Everyone(s)[i] == s.served[i] && Everyone(s)[j] == s.served[j];
  }

  /** Who served is never unserved, and who is served was waiting or came later. */
  lemma {:induction false} RunServes(s: LockState, events: seq<Event>, s': LockState, w: Waiter)
    requires LockInv(s) && LockRun(s, events, s') && w in s.waiting && w in s'.waiting
    ensures s.served <= s'.served && s'.immediate == s.immediate && s.arrivals <= s'.arrivals && s.made <= s'.made
    ensures forall i | |s.served| <= i < |s'.served| :: GoesFirst(s'.served[i], w)
    ensures forall i | |s.served| <= i < |s'.served| :: s'.served[i] in s.waiting || Later(s, s'.served[i])
    ensures forall u | u in s'.waiting :: u in s.waiting || Later(s, u)
    decreases events
  {
    if events != [] {
      var s1 := LockStep(s, events[0]);
      LockStepInv(s, events[0]);
      StepServes(s, events[0], s1);
      if w !in s1.waiting {
        hide LockInv, GoesFirst;
        GoneForGood(s1, events[1..], s', w);
        assert false;
      } else {
        RunServes(s1, events[1..], s', w);
        hide LockInv, LockRun, GoesFirst, LockStep, Possible;
        forall i | |s.served| <= i < |s'.served| ensures GoesFirst(s'.served[i], w)
            && (s'.served[i] in s.waiting || Later(s, s'.served[i])) {
          if i < |s1.served| {
            assert s'.served[i] == s1.served[i];
            assert s'.served[i] in s.waiting && GoesFirst(s'.served[i], w);
          }
        }
      }
    }
  }

  /** Arrived after s: its channel is newer, and so is its place if it takes turns. */
  predicate Later(s: LockState, u: Waiter) {
    u.ready >= s.made && (u.priority.incremental ==> u.order > s.arrivals)
  }

  lemma {:induction false} StepServes(s: LockState, e: Event, s1: LockState)
    requires LockInv(s) && Possible(s, e) && s1 == LockStep(s, e)
    ensures s.served <= s1.served && s.arrivals <= s1.arrivals && s.made <= s1.made
    ensures s.waiting != [] ==> s1.immediate == s.immediate
    ensures forall i | |s.served| <= i < |s1.served| ::
        && s1.served[i] in s.waiting
        && forall w | w in s.waiting :: GoesFirst(s1.served[i], w)
    ensures forall u | u in s1.waiting :: u in s.waiting || Later(s, u)
    ensures forall w | w in s.waiting && w !in s1.waiting :: w in s1.served
  {
    if e.Releasing? && s.waiting != [] {
      WithoutMembers(s.waiting, e.k);
    }
  }

  /** Whoever was served waits no more. */
  lemma {:induction false} GoneForGood(s: LockState, events: seq<Event>, s': LockState, w: Waiter)
    requires LockInv(s) && LockRun(s, events, s') && w in s.served
    ensures w !in s'.waiting && w in s'.served
  {
    ServedStays(s, events, s');
    RunInv(s, events, s');
    hide LockRun;
    var i :| 0 <= i < |s'.served| && s'.served[i] == w;
    forall j | 0 <= j < |s'.waiting| ensures s'.waiting[j] != w {
      assert Everyone(s')[i].ready != Everyone(s')[|s'.served| + j].ready;
    }
  }

  lemma {:induction false} ServedStays(s: LockState, events: seq<Event>, s': LockState)
    requires LockInv(s) && LockRun(s, events, s')
    ensures s.served <= s'.served
    decreases events
  {
    hide LockInv;
    if events != [] {
      LockStepInv(s, events[0]);
      ServedStays(LockStep(s, events[0]), events[1..], s');
    }
  }

  /**
   While w waits, nobody gets the lock without waiting, and it is handed only to
   writers that do not rank after w. If w takes turns, a writer that came later
   passes it only by being more urgent, or of the same urgency and not incremental.
   */
  lemma {:induction false} NotOvertaken(before: seq<Event>, s: LockState, events: seq<Event>, s': LockState, w: Waiter)
    requires LockRun(FREE, before, s) && LockRun(s, events, s') && w in s.waiting && w in s'.waiting
    ensures s'.immediate == s.immediate && s.served <= s'.served
    ensures forall i | |s.served| <= i < |s'.served| :: GoesFirst(s'.served[i], w)
    ensures w.priority.incremental ==>
      forall i | |s.served| <= i < |s'.served| && s'.served[i] !in s.waiting ::
        || s'.served[i].priority.urgency < w.priority.urgency
        || (s'.served[i].priority.urgency == w.priority.urgency && !s'.served[i].priority.incremental)
  {
    FreeInv();
    RunInv(FREE, before, s);
    RunServes(s, events, s', w);
    var k :| 0 <= k < |s.waiting| && s.waiting[k] == w;
    assert Everyone(s)[|s.served| + k] == w;
  }

  /** Two that wait rank alike exactly if they write to one stream that is not incremental, at one urgency. */
  lemma {:induction false} TiesExactly(events: seq<Event>, s: LockState, i: nat, j: nat)
    requires LockRun(FREE, events, s) && i < j < |s.waiting|
    ensures var a, b := s.waiting[i], s.waiting[j];
      GoesFirst(a, b) && GoesFirst(b, a) <==>
      && a.priority.urgency == b.priority.urgency && !a.priority.incremental && !b.priority.incremental
      && a.priority.streamId == b.priority.streamId
  {
    FreeInv();
    RunInv(FREE, events, s);
    var n := |s.served|;
    assert Everyone(s)[n + i] == s.waiting[i] && Everyone(s)[n + j] == s.waiting[j];
  }

  /** Control frames go ahead of all stream data: while a control writer waits, no stream gets the lock. */
  lemma {:induction false} ControlFirst(before: seq<Event>, s: LockState, events: seq<Event>, s': LockState,
      w: Waiter, i: nat)
    requires LockRun(FREE, before, s) && LockRun(s, events, s') && w in s.waiting && w in s'.waiting
    requires w.priority.urgency == URGENCY_CONTROL && |s.served| <= i < |s'.served|
    ensures !StreamPriority(s'.served[i].priority)
  {
    hide LockRun, LockInv;
    NotOvertaken(before, s, events, s', w);
  }

  /**
   Who goes first, spelled out: while w waits, whoever gets the lock is more urgent; or as urgent
   and not incremental while w is; or as urgent and incremental like w, and came earlier; or as
   urgent and not incremental like w, on a stream with no higher number.
   */
  lemma {:induction false} ServedInOrder(before: seq<Event>, s: LockState, events: seq<Event>, s': LockState,
      w: Waiter, i: nat)
    requires LockRun(FREE, before, s) && LockRun(s, events, s') && w in s.waiting && w in s'.waiting
    requires |s.served| <= i < |s'.served|
    ensures var u := s'.served[i];
      || u.priority.urgency < w.priority.urgency
      || (u.priority.urgency == w.priority.urgency && !u.priority.incremental && w.priority.incremental)
      || (u.priority.urgency == w.priority.urgency && u.priority.incremental && w.priority.incremental
          && u.ready < w.ready)
      || (u.priority.urgency == w.priority.urgency && !u.priority.incremental && !w.priority.incremental
          && u.priority.streamId <= w.priority.streamId)
  {
    hide LockRun, LockInv;
    NotOvertaken(before, s, events, s', w);
    FreeInv();
    RunInv(FREE, before, s);
    RunInv(s, events, s');
    var k :| 0 <= k < |s'.waiting| && s'.waiting[k] == w;
    PlacesOf(s', i, |s'.served| + k);
  }

  /** What the invariant says about someone served and someone who waits. */
  lemma {:induction false} PlacesOf(s: LockState, i: nat, j: nat)
    requires LockInv(s) && i < |s.served| <= j < |Everyone(s)|
    ensures var u, w := s.served[i], Everyone(s)[j];
      && Everyone(s)[i] == u
      && (!u.priority.incremental ==> u.order == u.priority.streamId)
      && (!w.priority.incremental ==> w.order == w.priority.streamId)
      && (TakeTurns(u, w) ==> u.order < w.order && u.ready < w.ready)
  {
    assert Everyone(s)[i] == s.served[i];
    assert s.served[i] in Everyone(s) && Everyone(s)[j] in Everyone(s);
  }
}
