/**
 Counters and high-water marks (metrics.hpp, metrics.cpp). The centre is update_max, a lock-free
 maximum register built from a compare-and-swap loop with relaxed memory order.
 */
module Metrics {

  type UInt64 = n: nat | n < 0x1_0000_0000_0000_0000

  function Max(a: UInt64, b: UInt64): (m: UInt64)
    ensures a <= m && b <= m && (m == a || m == b)
  {
    if a < b then b else a
  }

  // ------------------------------------------------------------------------------------------
  // Any number of concurrent calls of update_max on one target.
  //
  // Relaxed operations give no order between different atomics, and a relaxed load may return an
  // old value. What remains is coherence: the target has one modification order (writes), a caller
  // never reads a write older than one it has read before, and a successful exchange reads the
  // last write.
  // ------------------------------------------------------------------------------------------

  datatype Phase = Entered | Looping | Returned

  // One call: its argument, its local variable cur, which write cur was read from, and for the
  // statement of the bound the first value read and the number of failures that were not spurious.
  datatype Caller = Caller(value: UInt64, phase: Phase, cur: UInt64, seen: nat, first: UInt64, retries: nat)

  datatype Register = Register(writes: seq<UInt64>, callers: map<nat, Caller>)

  datatype Event =
    | Enter(id: nat, value: UInt64)   // a thread calls update_max(target, value)
    | Load(id: nat, i: nat)           // the first load reads write i
    | Leave(id: nat)                  // the loop test cur < value fails
    | Exchange(id: nat)               // compare_exchange_weak succeeds
    | Fail(id: nat, i: nat)           // it fails and refreshes cur from write i, spuriously when that is cur again

  predicate Enabled(r: Register, e: Event) {
    match e
    case Enter(id, _) => id !in r.callers
    case Load(id, i) => id in r.callers && r.callers[id].phase == Entered && i < |r.writes|
    case Leave(id) => id in r.callers && r.callers[id].phase == Looping && r.callers[id].cur >= r.callers[id].value
    case Exchange(id) =>
      && id in r.callers && r.callers[id].phase == Looping && r.callers[id].cur < r.callers[id].value
      && |r.writes| > 0 && r.writes[|r.writes| - 1] == r.callers[id].cur
    case Fail(id, i) =>
      && id in r.callers && r.callers[id].phase == Looping && r.callers[id].cur < r.callers[id].value
      && r.callers[id].seen <= i < |r.writes|
  }

  function Step(r: Register, e: Event): Register
    requires Enabled(r, e)
  {
    match e
    case Enter(id, value) => r.(callers := r.callers[id := Caller(value, Entered, 0, 0, 0, 0)])
    case Load(id, i) =>
      var c := r.callers[id];
      r.(callers := r.callers[id := c.(phase := Looping, cur := r.writes[i], seen := i, first := r.writes[i])])
    case Leave(id) => r.(callers := r.callers[id := r.callers[id].(phase := Returned)])
    case Exchange(id) =>
      var c := r.callers[id];
      Register(r.writes + [c.value], r.callers[id := c.(phase := Returned)])
    case Fail(id, i) =>
      var c := r.callers[id];
      var genuine := if r.writes[i] != c.cur then 1 else 0;
      r.(callers := r.callers[id := c.(cur := r.writes[i], seen := i, retries := c.retries + genuine)])
  }

  ghost predicate IsRun(init: UInt64, states: seq<Register>, events: seq<Event>) {
    && |states| == |events| + 1
    && states[0] == Register([init], map[])
    && forall i {:trigger events[i]} | 0 <= i < |events| :: Moves(states[i], events[i], states[i + 1])
  }

  ghost predicate Moves(r: Register, e: Event, r': Register) {
    Enabled(r, e) && r' == Step(r, e)
  }

  lemma RunMoves(init: UInt64, states: seq<Register>, events: seq<Event>, i: nat)
    requires IsRun(init, states, events) && i < |events|
    ensures Moves(states[i], events[i], states[i + 1])
  {}

  function Target(r: Register): UInt64
    requires |r.writes| > 0
  {
    r.writes[|r.writes| - 1]
  }

  ghost predicate CallerInv(r: Register, c: Caller) {
    && (c.phase == Looping ==>
        && c.seen < |r.writes| && c.cur == r.writes[c.seen]
        && c.first <= c.cur && c.retries <= c.cur - c.first)
    && (c.phase == Entered ==> c.retries == 0)
    && (c.retries > 0 ==> c.first < c.value && c.retries <= c.value - c.first)
    && (c.phase == Returned ==> |r.writes| > 0 && c.value <= Target(r))
  }

  // The modification order starts at init, grows, and holds arguments of calls only.
  ghost predicate WritesInv(init: UInt64, r: Register) {
    && |r.writes| > 0 && r.writes[0] == init
    && (forall i, j | 0 <= i < j < |r.writes| :: r.writes[i] < r.writes[j])
    && (forall i | 0 < i < |r.writes| :: IsArgument(r, r.writes[i]))
  }

  ghost predicate IsArgument(r: Register, v: UInt64) {
    exists id :: id in r.callers && r.callers[id].value == v
  }

  ghost predicate Inv(init: UInt64, r: Register) {
    && WritesInv(init, r)
    && forall id | id in r.callers :: CallerInv(r, r.callers[id])
  }

  lemma ArgumentsStay(r: Register, e: Event, v: UInt64)
    requires Enabled(r, e) && IsArgument(r, v)
    ensures IsArgument(Step(r, e), v)
  {
    var id :| id in r.callers && r.callers[id].value == v;
    assert id in Step(r, e).callers && Step(r, e).callers[id].value == v;
  }

  lemma WritesStep(init: UInt64, r: Register, e: Event)
    requires WritesInv(init, r) && Enabled(r, e)
    ensures WritesInv(init, Step(r, e))
    ensures Target(r) <= Target(Step(r, e))
  {
    var r' := Step(r, e);
    forall i | 0 < i < |r'.writes|
      ensures IsArgument(r', r'.writes[i])
    {
      if i < |r.writes| {
        ArgumentsStay(r, e, r.writes[i]);
      } else {
        assert e.id in r'.callers && r'.callers[e.id].value == r'.writes[i];
      }
    }
  }

  // A caller that takes no part in the step keeps its invariant: old writes stay and the target only grows.
  lemma OthersKeep(init: UInt64, r: Register, e: Event, c: Caller)
    requires WritesInv(init, r) && Enabled(r, e) && CallerInv(r, c)
    ensures CallerInv(Step(r, e), c)
  {
    WritesStep(init, r, e);
    if c.phase == Looping {
      assert Step(r, e).writes[c.seen] == r.writes[c.seen];
    }
  }

  lemma CallerSteps(init: UInt64, r: Register, e: Event)
    requires WritesInv(init, r) && Enabled(r, e)
    requires !e.Enter? ==> CallerInv(r, r.callers[e.id])
    ensures CallerInv(Step(r, e), Step(r, e).callers[e.id])
  {
    WritesStep(init, r, e);
    match e
    case Fail(id, i) =>
      var c := r.callers[id];
      assert c.cur == r.writes[c.seen] <= r.writes[i];
    case Leave(id) =>
      var c := r.callers[id];
      assert c.seen == |r.writes| - 1 || r.writes[c.seen] < Target(r);
    case _ =>
  }

  lemma StepKeepsInv(init: UInt64, r: Register, e: Event)
    requires Inv(init, r) && Enabled(r, e)
    ensures Inv(init, Step(r, e))
    ensures Target(r) <= Target(Step(r, e))
  {
    WritesStep(init, r, e);
    var r' := Step(r, e);
    forall id | id in r'.callers
      ensures CallerInv(r', r'.callers[id])
    {
      if id == e.id {
        CallerSteps(init, r, e);
      } else {
        OthersKeep(init, r, e, r.callers[id]);
      }
    }
  }

  lemma {:induction false} RunKeepsInv(init: UInt64, states: seq<Register>, events: seq<Event>, n: nat)
    requires IsRun(init, states, events) && n < |states|
    ensures Inv(init, states[n])
  {
    if n > 0 {
      var i := n - 1;
      RunKeepsInv(init, states, events, i);
      RunMoves(init, states, events, i);
      StepKeepsInv(init, states[i], events[i]);
    }
  }

  /** The target never decreases. */
  lemma {:induction false} NeverDecreases(init: UInt64, states: seq<Register>, events: seq<Event>, m: nat, n: nat)
    requires IsRun(init, states, events) && m <= n < |states|
    ensures |states[m].writes| > 0 && |states[n].writes| > 0
    ensures init <= Target(states[m]) <= Target(states[n])
    decreases n
  {
    if m < n {
      var i := n - 1;
      NeverDecreases(init, states, events, m, i);
      RunKeepsInv(init, states, events, i);
      RunMoves(init, states, events, i);
      StepKeepsInv(init, states[i], events[i]);
    } else {
      RunKeepsInv(init, states, events, n);
      NeverBelowFirst(states[n].writes);
    }
  }

  lemma NeverBelowFirst(writes: seq<UInt64>)
    requires |writes| > 0 && forall i, j | 0 <= i < j < |writes| :: writes[i] < writes[j]
    ensures writes[0] <= writes[|writes| - 1]
  {}

  /**
   In every interleaving, stale reads and spurious failures included: a call that has returned left the
   target at its value or above, and it failed for a real reason at most value - first times.
   */
  lemma CallGuarantee(init: UInt64, states: seq<Register>, events: seq<Event>, n: nat, id: nat)
    requires IsRun(init, states, events) && n < |states|
    requires id in states[n].callers
    ensures var c := states[n].callers[id];
            && |states[n].writes| > 0
            && (c.phase == Returned ==> c.value <= Target(states[n]))
            && (c.retries > 0 ==> c.retries <= c.value - c.first)
  {
    RunKeepsInv(init, states, events, n);
    assert CallerInv(states[n], states[n].callers[id]);
  }

  /** Once every call has returned, the target is the maximum of the initial value and all arguments. */
  lemma QuiescentMaximum(init: UInt64, states: seq<Register>, events: seq<Event>, n: nat)
    requires IsRun(init, states, events) && n < |states|
    requires forall id | id in states[n].callers :: states[n].callers[id].phase == Returned
    ensures |states[n].writes| > 0
    ensures var m := Target(states[n]);
            && init <= m && (forall id | id in states[n].callers :: states[n].callers[id].value <= m)
            && (m == init || IsArgument(states[n], m))
  {
    RunKeepsInv(init, states, events, n);
    assert forall id | id in states[n].callers :: CallerInv(states[n], states[n].callers[id]);
  }

  // ------------------------------------------------------------------------------------------
  // The loop itself, run by one thread while others interfere between its steps.
  // ------------------------------------------------------------------------------------------

  // What happens just before one evaluation of compare_exchange_weak
  datatype Interference = Nothing | Spurious | Other(value: UInt64)

  // The target after other threads' update_max calls
  function Raised(v: UInt64, others: seq<Interference>): (r: UInt64)
    ensures v <= r
  {
    if others == [] then v
    else
      var before := Raised(v, others[..|others| - 1]);
      match others[|others| - 1]
      case Other(w) => Max(before, w)
      case _ => before
  }

  // That is the maximum of what it was and of their values.
  lemma {:induction false} RaisedIsMaximum(v: UInt64, others: seq<Interference>)
    ensures v <= Raised(v, others) && forall w: UInt64 | Other(w) in others :: w <= Raised(v, others)
    ensures Raised(v, others) == v || Other(Raised(v, others)) in others
  {
    if others != [] {
      var k := |others| - 1;
      RaisedIsMaximum(v, others[..k]);
      assert others == others[..k] + [others[k]];
    }
  }

  class Atomic {
    var value: UInt64

    constructor ()
      ensures value == 0
    {
      value := 0;
    }

    // compare_exchange_weak(expected, desired)
    method CompareExchangeWeak(expected: UInt64, desired: UInt64, spurious: bool) returns (ok: bool, seen: UInt64)
      modifies this
      ensures ok <==> old(value) == expected && !spurious
      ensures value == if ok then desired else old(value)
      ensures seen == old(value)
    {
      seen := value;
      ok := value == expected && !spurious;
      if ok {
        value := desired;
      }
    }

    /** update_max: the result is the maximum of this value and everything that interfered before the loop ended. */
    method UpdateMax(v: UInt64, interference: seq<Interference>) returns (used: nat)
      modifies this
      ensures used <= |interference|
      ensures value == Max(Raised(old(value), interference[..used]), v)
      ensures v <= value && old(value) <= value && forall w: UInt64 | Other(w) in interference[..used] :: w <= value
      ensures value == v || value == old(value) || Other(value) in interference[..used]
    {
      var cur: UInt64 := value;
      used := 0;
      var done := false;
      while !done && cur < v
        invariant used <= |interference|
        invariant !done ==> value == Raised(old(value), interference[..used]) && cur <= value
        invariant done ==> value == Max(Raised(old(value), interference[..used]), v)
        decreases !done, |interference| - used, if value == cur then 0 else 1
      {
        var spurious := false;
        if used < |interference| {
          assert interference[..used + 1][..used] == interference[..used];
          match interference[used] {
            case Nothing =>
            case Spurious => spurious := true;
            case Other(w) => value := Max(value, w);
          }
          used := used + 1;
        }
        done, cur := CompareExchangeWeak(cur, v, spurious);
      }
      RaisedIsMaximum(old(value), interference[..used]);
    }
  }

  // ------------------------------------------------------------------------------------------
  // The metrics the write pipeline and the session report.
  // ------------------------------------------------------------------------------------------

  class Metrics {
    var writesEnqueued: nat
    var writesCompleted: nat
    var writeQueueDepth: UInt64
    const maxDepth: Atomic
    const maxInFlight: Atomic
    var closeEvents: nat
    var timeouts: nat
    var connectionClosedFailures: nat

    ghost predicate Valid() {
      maxDepth != maxInFlight
    }

    ghost function Repr(): set<object> {
      {this, maxDepth, maxInFlight}
    }

    constructor ()
      ensures Valid() && fresh(Repr())
      ensures writesEnqueued == writesCompleted == closeEvents == timeouts == connectionClosedFailures == 0
      ensures writeQueueDepth == maxDepth.value == maxInFlight.value == 0
    {
      writesEnqueued, writesCompleted, writeQueueDepth := 0, 0, 0;
      closeEvents, timeouts, connectionClosedFailures := 0, 0, 0;
      maxDepth := new Atomic();
      maxInFlight := new Atomic();
    }

    method TransportOnWriteEnqueued(depth: UInt64, interference: seq<Interference>) returns (used: nat)
      requires Valid()
      modifies this`writesEnqueued, this`writeQueueDepth, maxDepth
      ensures writesEnqueued == old(writesEnqueued) + 1 && writeQueueDepth == depth
      ensures used <= |interference|
      ensures maxDepth.value == Max(Raised(old(maxDepth.value), interference[..used]), depth)
    {
      writesEnqueued := writesEnqueued + 1;
      writeQueueDepth := depth;
      used := maxDepth.UpdateMax(depth, interference);
    }

    method TransportOnWriteCompleted(depth: UInt64)
      modifies this`writesCompleted, this`writeQueueDepth
      ensures writesCompleted == old(writesCompleted) + 1 && writeQueueDepth == depth
    {
      writesCompleted := writesCompleted + 1;
      writeQueueDepth := depth;
    }

    method TransportObserveWritesInFlight(inFlight: UInt64, interference: seq<Interference>) returns (used: nat)
      requires Valid()
      modifies maxInFlight
      ensures used <= |interference|
      ensures maxInFlight.value == Max(Raised(old(maxInFlight.value), interference[..used]), inFlight)
    {
      used := maxInFlight.UpdateMax(inFlight, interference);
    }
  }
}
