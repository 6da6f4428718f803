/**
 * The bounded queue of gestures that arrive while another one is running.
 * Entries older than five seconds are purged when a new one is added, the
 * queue never holds more than three, and entries are kept in priority order,
 * arrival order among equals.
 */
module ActionQueue {
  import opened DataTypes
  import opened MotorActions

  datatype ActionPriority = Low | Normal | High | Urgent

  /** The priority's raw value, which is what the source compares. */
  function Rank(p: ActionPriority): nat {
    match p
    case Low => 0
    case Normal => 1
    case High => 2
    case Urgent => 3
  }

  /** A gesture waiting for the dock, stamped (in seconds) with the time it was requested. */
  datatype PendingMotorAction = PendingMotorAction(
    action: FastMotorAction, mood: RobotMood, timestamp: real, priority: ActionPriority)

  const StaleAfter: real := 5.0
  const Capacity: nat := 3

  /** Strictly more than five seconds old at `now`. */
  predicate IsStale(e: PendingMotorAction, now: real): (b: bool)
    ensures b ==> e.timestamp < now
    ensures b <==> e.timestamp + StaleAfter < now
    ensures now == e.timestamp + StaleAfter ==> !b
  {
    now - e.timestamp > StaleAfter
  }

  /** Non-increasing priority from the front. */
  ghost predicate Sorted(q: seq<PendingMotorAction>) {
    forall i, j :: 0 <= i < j < |q| ==> Rank(q[i].priority) >= Rank(q[j].priority)
  }

  /**
   * `a` is `b` with some entries left out: what remains keeps its order and
   * its repetitions.
   */
  ghost predicate IsSubsequence(a: seq<PendingMotorAction>, b: seq<PendingMotorAction>)
    decreases |b|
  {
    a == [] ||
    (b != [] && ((a[0] == b[0] && IsSubsequence(a[1..], b[1..])) || IsSubsequence(a, b[1..])))
  }

  lemma {:induction false} SubsequenceReflexive(a: seq<PendingMotorAction>)
    ensures IsSubsequence(a, a)
    decreases |a|
  {
    if a != [] {
      SubsequenceReflexive(a[1..]);
    }
  }

  lemma {:induction false} SubsequenceTransitive(a: seq<PendingMotorAction>, b: seq<PendingMotorAction>, c: seq<PendingMotorAction>)
    requires IsSubsequence(a, b) && IsSubsequence(b, c)
    ensures IsSubsequence(a, c)
    decreases |c|
  {
    if a != [] {
      if b[0] == c[0] && IsSubsequence(b[1..], c[1..]) {
        if a[0] == b[0] && IsSubsequence(a[1..], b[1..]) {
          SubsequenceTransitive(a[1..], b[1..], c[1..]);
        } else {
          SubsequenceTransitive(a, b[1..], c[1..]);
        }
      } else {
        SubsequenceTransitive(a, b, c[1..]);
      }
    }
  }

  /** A subsequence holds each entry at most as often as the whole. */
  lemma {:induction false} SubsequenceMultiset(a: seq<PendingMotorAction>, b: seq<PendingMotorAction>)
    requires IsSubsequence(a, b)
    ensures multiset(a) <= multiset(b)
    decreases |b|
  {
    if a != [] {
      assert b == [b[0]] + b[1..];
      if a[0] == b[0] && IsSubsequence(a[1..], b[1..]) {
        SubsequenceMultiset(a[1..], b[1..]);
        assert a == [a[0]] + a[1..];
      } else {
        SubsequenceMultiset(a, b[1..]);
      }
    }
  }

  /** Leaving out the entry at `i` gives a subsequence. */
  lemma {:induction false} DropOneSubsequence(q: seq<PendingMotorAction>, i: nat)
    requires i < |q|
    ensures IsSubsequence(q[..i] + q[i + 1..], q)
    decreases i
  {
    if i == 0 {
      assert q[..0] + q[1..] == q[1..];
      SubsequenceReflexive(q[1..]);
    } else {
      var a := q[..i] + q[i + 1..];
      DropOneSubsequence(q[1..], i - 1);
      assert a[0] == q[0];
      assert a[1..] == q[1..][..i - 1] + q[1..][i..];
    }
  }

  // ---------------------------------------------------------------------
  // Specification of one addition
  // ---------------------------------------------------------------------

  /** `removeAll { now - $0.timestamp > 5.0 }`: keeps the entries that are not stale, in order. */
  function PurgeStale(q: seq<PendingMotorAction>, now: real): (r: seq<PendingMotorAction>)
    ensures |r| <= |q|
    ensures forall x :: x in r <==> x in q && !IsStale(x, now)
    ensures IsSubsequence(r, q)
  {
    if q == [] then []
    else
      var rest := PurgeStale(q[1..], now);
      if IsStale(q[0], now) then rest
      else assert ([q[0]] + rest)[1..] == rest; [q[0]] + rest
  }

  /** `firstIndex { $0.priority == .low }`, with |q| standing for "none". */
  function FirstLowIndex(q: seq<PendingMotorAction>): (i: nat)
    ensures i <= |q|
    ensures i < |q| ==> q[i].priority == Low
    ensures forall j :: 0 <= j < i ==> q[j].priority != Low
  {
    if q == [] then 0
    else if q[0].priority == Low then 0
    else 1 + FirstLowIndex(q[1..])
  }

  /** One pass of the overflow loop: drop the front-most low entry, or else the front entry. */
  function EvictOne(q: seq<PendingMotorAction>): (r: seq<PendingMotorAction>)
    requires q != []
    ensures |r| == |q| - 1
    ensures IsSubsequence(r, q)
  {
    var i := FirstLowIndex(q);
    if i < |q| then
      DropOneSubsequence(q, i);
      q[..i] + q[i + 1..]
    else
      assert q[..0] + q[1..] == q[1..];
      DropOneSubsequence(q, 0);
      q[1..]
  }

  /** The overflow loop: evict while three or more entries remain. */
  function Evict(q: seq<PendingMotorAction>): (r: seq<PendingMotorAction>)
    ensures |r| < Capacity
    ensures |q| < Capacity ==> r == q
    ensures |q| >= Capacity ==> |r| == Capacity - 1
    ensures forall x :: x in r ==> x in q
    decreases |q|
  {
    if |q| >= Capacity then Evict(EvictOne(q)) else q
  }

  /** `firstIndex { $0.priority < p }`, with |q| standing for "none". */
  function InsertIndex(q: seq<PendingMotorAction>, p: ActionPriority): (i: nat)
    ensures i <= |q|
    ensures forall j :: 0 <= j < i ==> Rank(q[j].priority) >= Rank(p)
    ensures i < |q| ==> Rank(q[i].priority) < Rank(p)
  {
    if q == [] then 0
    else if Rank(q[0].priority) < Rank(p) then 0
    else 1 + InsertIndex(q[1..], p)
  }

  function Insert(q: seq<PendingMotorAction>, e: PendingMotorAction): (r: seq<PendingMotorAction>)
    ensures |r| == |q| + 1
    ensures r[InsertIndex(q, e.priority)] == e
  {
    var i := InsertIndex(q, e.priority);
    q[..i] + [e] + q[i..]
  }

  /** The queue after `addToPendingQueue(e)` at time `now`. */
  function Enqueued(q: seq<PendingMotorAction>, e: PendingMotorAction, now: real): (r: seq<PendingMotorAction>)
    ensures 1 <= |r| <= Capacity && e in r
  {
    Insert(Evict(PurgeStale(q, now)), e)
  }

  // ---------------------------------------------------------------------
  // Properties of one addition
  // ---------------------------------------------------------------------

  /** Purging is a filter: it purges the parts of a queue separately. */
  lemma {:induction false} PurgeStaleAppend(a: seq<PendingMotorAction>, b: seq<PendingMotorAction>, now: real)
    ensures PurgeStale(a + b, now) == PurgeStale(a, now) + PurgeStale(b, now)
    decreases |a|
  {
    if a == [] {
      assert a + b == b;
    } else {
      assert (a + b)[0] == a[0];
      assert (a + b)[1..] == a[1..] + b;
      PurgeStaleAppend(a[1..], b, now);
      var x, y := PurgeStale(a[1..], now), PurgeStale(b, now);
      assert [a[0]] + (x + y) == ([a[0]] + x) + y;
    }
  }

  /** A single entry survives a purge iff it is not stale. */
  lemma PurgeStaleSingleton(e: PendingMotorAction, now: real)
    ensures PurgeStale([e], now) == if IsStale(e, now) then [] else [e]
  {
    assert [e][1..] == [];
  }

  /** The overflow loop only leaves entries out: the survivors keep their order. */
  lemma {:induction false} EvictSubsequence(q: seq<PendingMotorAction>)
    ensures IsSubsequence(Evict(q), q)
    decreases |q|
  {
    if |q| >= Capacity {
      var i := FirstLowIndex(q);
      if i < |q| {
        DropOneSubsequence(q, i);
      } else {
        assert q[1..] == q[..0] + q[0 + 1..];
        DropOneSubsequence(q, 0);
      }
      EvictSubsequence(EvictOne(q));
      SubsequenceTransitive(Evict(q), EvictOne(q), q);
    } else {
      SubsequenceReflexive(q);
    }
  }

  lemma {:induction false} PurgeStaleSorted(q: seq<PendingMotorAction>, now: real)
    requires Sorted(q)
    ensures Sorted(PurgeStale(q, now))
    decreases |q|
  {
    if q != [] {
      var tail := PurgeStale(q[1..], now);
      PurgeStaleSorted(q[1..], now);
      forall x | x in tail ensures Rank(q[0].priority) >= Rank(x.priority) {
        var j :| 0 <= j < |q[1..]| && q[1..][j] == x;
        assert q[j + 1] == x;
      }
    }
  }

  lemma EvictOneSorted(q: seq<PendingMotorAction>)
    requires q != [] && Sorted(q)
    ensures Sorted(EvictOne(q))
  {
    var i := FirstLowIndex(q);
    if i < |q| {
      var r := EvictOne(q);
      forall a, b | 0 <= a < b < |r| ensures Rank(r[a].priority) >= Rank(r[b].priority) {
        var a' := if a < i then a else a + 1;
        var b' := if b < i then b else b + 1;
        assert r[a] == q[a'] && r[b] == q[b'];
      }
    }
  }

  lemma {:induction false} EvictSorted(q: seq<PendingMotorAction>)
    requires Sorted(q)
    ensures Sorted(Evict(q))
    decreases |q|
  {
    if |q| >= Capacity {
      EvictOneSorted(q);
      EvictSorted(EvictOne(q));
    }
  }

  /** Insertion puts the new entry at its index and leaves the old entries around it in order. */
  lemma InsertShape(q: seq<PendingMotorAction>, e: PendingMotorAction)
    ensures var i := InsertIndex(q, e.priority);
      var r := Insert(q, e);
      |r| == |q| + 1 && r[i] == e && r[..i] + r[i + 1..] == q &&
      (forall j :: 0 <= j < i ==> r[j] == q[j]) &&
      (forall j :: i < j < |r| ==> r[j] == q[j - 1])
  {
    var i := InsertIndex(q, e.priority);
    var r := q[..i] + [e] + q[i..];
    assert |r| == |q| + 1;
    forall j | 0 <= j < i ensures r[j] == q[j] {
    }
    forall j | i < j < |r| ensures r[j] == q[j - 1] {
    }
    assert r[..i] + r[i + 1..] == q;
  }

  /**
   * Where a new entry goes: after every entry of the same or higher priority
   * (so equal priorities stay first-come first-served) and, in a sorted
   * queue, before every entry of lower priority; the old entries keep their
   * order around it.
   */
  lemma InsertPosition(q: seq<PendingMotorAction>, e: PendingMotorAction)
    requires Sorted(q)
    ensures var i := InsertIndex(q, e.priority);
      var r := Insert(q, e);
      |r| == |q| + 1 && r[i] == e && r[..i] + r[i + 1..] == q &&
      (forall j :: 0 <= j < i ==> Rank(r[j].priority) >= Rank(e.priority)) &&
      (forall j :: i < j < |r| ==> Rank(r[j].priority) < Rank(e.priority))
  {
    InsertShape(q, e);
    var i := InsertIndex(q, e.priority);
    var r := Insert(q, e);
    forall j | i < j < |r| ensures Rank(r[j].priority) < Rank(e.priority) {
      if j - 1 > i {
        assert Rank(q[i].priority) >= Rank(q[j - 1].priority);
      }
    }
  }

  lemma InsertSorted(q: seq<PendingMotorAction>, e: PendingMotorAction)
    requires Sorted(q)
    ensures Sorted(Insert(q, e))
  {
    InsertShape(q, e);
    InsertPosition(q, e);
    var i := InsertIndex(q, e.priority);
    var r := Insert(q, e);
    forall a, b | 0 <= a < b < |r| ensures Rank(r[a].priority) >= Rank(r[b].priority) {
      if a != i && b != i {
        var a' := if a < i then a else a - 1;
        var b' := if b < i then b else b - 1;
        assert Rank(q[a'].priority) >= Rank(q[b'].priority);
      }
    }
  }

  lemma InsertMembers(q: seq<PendingMotorAction>, e: PendingMotorAction)
    ensures e in Insert(q, e) && |Insert(q, e)| == |q| + 1
    ensures forall x :: x in Insert(q, e) ==> x == e || x in q
  {
    var i := InsertIndex(q, e.priority);
    assert Insert(q, e)[i] == e;
    assert q == q[..i] + q[i..];
  }

  /**
   * After an addition the queue holds at most three entries, stays in
   * priority order, contains the new entry, and every other entry it holds
   * was already queued and is not stale at `now`.
   */
  lemma EnqueueInvariants(q: seq<PendingMotorAction>, e: PendingMotorAction, now: real)
    requires Sorted(q)
    ensures var r := Enqueued(q, e, now);
      1 <= |r| <= Capacity && Sorted(r) && e in r &&
      forall x :: x in r ==> x == e || (x in q && !IsStale(x, now))
  {
    var p := PurgeStale(q, now);
    PurgeStaleSorted(q, now);
    EvictSorted(p);
    InsertSorted(Evict(p), e);
    InsertMembers(Evict(p), e);
  }

  /**
   * First come, first served: after an addition the old entries that remain
   * are a subsequence of the old queue (so equal priorities keep their
   * arrival order), and in a sorted queue every entry behind the new one has
   * strictly lower priority, so the new entry queues behind every remaining
   * entry of its own priority.
   */
  lemma EnqueueKeepsOrder(q: seq<PendingMotorAction>, e: PendingMotorAction, now: real)
    requires Sorted(q)
    ensures var p := Evict(PurgeStale(q, now));
      var i := InsertIndex(p, e.priority);
      var r := Enqueued(q, e, now);
      i < |r| && r[i] == e && IsSubsequence(r[..i] + r[i + 1..], q) &&
      (forall j :: i < j < |r| ==> Rank(r[j].priority) < Rank(e.priority))
  {
    var purged := PurgeStale(q, now);
    var p := Evict(purged);
    EvictSubsequence(purged);
    SubsequenceTransitive(p, purged, q);
    PurgeStaleSorted(q, now);
    EvictSorted(purged);
    InsertShape(p, e);
    InsertPosition(p, e);
  }

  /** Without overflow nothing fresh is dropped: the queue gains exactly the new entry. */
  lemma EnqueueWithoutOverflow(q: seq<PendingMotorAction>, e: PendingMotorAction, now: real)
    requires |PurgeStale(q, now)| < Capacity
    ensures multiset(Enqueued(q, e, now)) == multiset(PurgeStale(q, now)) + multiset{e}
  {
    var p := PurgeStale(q, now);
    var i := InsertIndex(p, e.priority);
    assert p == p[..i] + p[i..];
  }

  /**
   * The overflow rule: the front-most low entry goes if there is one;
   * otherwise the front entry goes, which in a sorted queue is one of the
   * highest priority rather than the oldest.
   */
  lemma OverflowRule(q: seq<PendingMotorAction>)
    requires q != []
    ensures (exists j :: 0 <= j < |q| && q[j].priority == Low) ==>
      var i := FirstLowIndex(q);
      i < |q| && q[i].priority == Low && EvictOne(q) == q[..i] + q[i + 1..] &&
      forall j :: 0 <= j < i ==> q[j].priority != Low
    ensures (forall j :: 0 <= j < |q| ==> q[j].priority != Low) ==>
      EvictOne(q) == q[1..] &&
      (Sorted(q) ==> forall j :: 0 <= j < |q| ==> Rank(q[0].priority) >= Rank(q[j].priority))
  {
  }

  /** Example: with no low entry, a fourth request evicts the high-priority front entry, not the older normal one behind it. */
  lemma OverflowExample(a: PendingMotorAction, b: PendingMotorAction, c: PendingMotorAction, d: PendingMotorAction)
    requires a.priority == High && b.priority == ActionPriority.Normal && c.priority == ActionPriority.Normal
    requires d.priority == ActionPriority.Normal
    requires a.timestamp == 1.0 && b.timestamp == 0.5 && c.timestamp == 2.0 && d.timestamp == 3.0
    ensures Enqueued([a, b, c], d, 3.0) == [b, c, d]
  {
    assert PurgeStale([a, b, c], 3.0) == [a, b, c] by {
      assert [c][1..] == [];
      assert PurgeStale([c], 3.0) == [c];
      assert [b, c][1..] == [c];
      assert PurgeStale([b, c], 3.0) == [b, c];
      assert [a, b, c][1..] == [b, c];
    }
    assert FirstLowIndex([a, b, c]) == 3 by {
      assert [a, b, c][1..] == [b, c];
      assert [b, c][1..] == [c];
      assert [c][1..] == [];
    }
    assert Evict([a, b, c]) == [b, c];
    assert InsertIndex([b, c], ActionPriority.Normal) == 2 by {
      assert [b, c][1..] == [c];
      assert [c][1..] == [];
    }
  }

  // ---------------------------------------------------------------------
  // The queue object
  // ---------------------------------------------------------------------

  /** The actor that owns the pending entries; every operation runs to completion on its own. */
  class MotorActionQueueManager {
    var pendingActions: seq<PendingMotorAction>

    ghost predicate Valid()
      reads this
    {
      Sorted(pendingActions) && |pendingActions| <= Capacity
    }

    constructor ()
      ensures Valid() && pendingActions == []
    {
      pendingActions := [];
    }

    /** Purges stale entries, evicts down to two, then inserts `action` by priority. */
    method AddToPendingQueue(action: PendingMotorAction, now: real)
      requires Valid()
      modifies this
      ensures Valid()
      ensures pendingActions == Enqueued(old(pendingActions), action, now)
    {
      ghost var purged := PurgeStale(pendingActions, now);
      PurgeStaleSorted(pendingActions, now);
      pendingActions := PurgeStale(pendingActions, now);
      while |pendingActions| >= Capacity
        invariant Evict(pendingActions) == Evict(purged)
        invariant Sorted(pendingActions)
        decreases |pendingActions|
      {
        EvictOneSorted(pendingActions);
        var i := FirstLowIndex(pendingActions);
        if i < |pendingActions| {
          pendingActions := pendingActions[..i] + pendingActions[i + 1..];
        } else {
          pendingActions := pendingActions[1..];
        }
      }
      InsertSorted(pendingActions, action);
      var k := InsertIndex(pendingActions, action.priority);
      pendingActions := pendingActions[..k] + [action] + pendingActions[k..];
    }

    /** Takes the front entry (highest priority, earliest among equals), or none when empty. */
    method RemoveFirst() returns (r: Option<PendingMotorAction>)
      requires Valid()
      modifies this
      ensures Valid()
      ensures old(pendingActions) == [] ==> r == None && pendingActions == []
      ensures old(pendingActions) != [] ==>
        r == Some(old(pendingActions)[0]) && pendingActions == old(pendingActions)[1..]
    {
      if pendingActions == [] {
        return None;
      }
      r := Some(pendingActions[0]);
      pendingActions := pendingActions[1..];
    }

    method RemoveAll()
      modifies this
      ensures Valid() && pendingActions == []
    {
      pendingActions := [];
    }

    method Count() returns (n: nat)
      ensures n == |pendingActions|
    {
      n := |pendingActions|;
    }

    method IsEmpty() returns (b: bool)
      ensures b <==> pendingActions == []
    {
      b := pendingActions == [];
    }
  }
}
