/**
 What holds of a session in every interleaving of its steps: sends, replies and duplicates, timeouts whose
 handler was queued before the cancel, closes, and callbacks run later or sending further calls.
 */
module SessionRuns {
  import opened OcppModel
  import opened Session

  // ------------------------------------------------------------------------------------------
  // Exactly once.
  // ------------------------------------------------------------------------------------------

  ghost predicate Claimed(claims: seq<Claim>, id: Id) {
    exists i :: 0 <= i < |claims| && claims[i].id == id
  }

  // Every call is pending or claimed, not both, and claimed once.
  ghost predicate LedgerInv(s: State) {
    && (forall id :: id in s.log.calls <==> id in s.pending || Claimed(s.log.claims, id))
    && (forall i | 0 <= i < |s.log.claims| :: s.log.claims[i].id !in s.pending)
    && (forall i, j | 0 <= i < j < |s.log.claims| :: s.log.claims[i].id != s.log.claims[j].id)
  }

  // A claim is open until its callback runs, and that happens once.
  ghost predicate CallbackInv(s: State) {
    && (forall i :: i in s.work.open <==> 0 <= i < |s.log.claims| && i !in s.work.ran)
    && (forall k | 0 <= k < |s.work.ran| :: s.work.ran[k] < |s.log.claims|)
    && (forall k, l | 0 <= k < l < |s.work.ran| :: s.work.ran[k] != s.work.ran[l])
  }

  // The entry that was removed, the claims added: what each step does to the ledger
  lemma ClaimedAppend(claims: seq<Claim>, more: seq<Claim>, id: Id)
    ensures Claimed(claims + more, id) <==> Claimed(claims, id) || Claimed(more, id)
  {
    var all := claims + more;
    if Claimed(claims, id) {
      var i :| 0 <= i < |claims| && claims[i].id == id;
      assert all[i].id == id;
    }
    if Claimed(more, id) {
      var i :| 0 <= i < |more| && more[i].id == id;
      assert all[|claims| + i].id == id;
    }
    if Claimed(all, id) {
      var i :| 0 <= i < |all| && all[i].id == id;
      assert if i < |claims| then claims[i].id == id else more[i - |claims|].id == id;
    }
  }

  lemma TakeKeepsLedger(s: State, id: Id, frame: Frame, cause: Cause)
    requires LedgerInv(s) && id in s.pending
    ensures LedgerInv(Take(s, id, frame, cause))
  {
    var t := Take(s, id, frame, cause);
    var c := Claim(id, s.pending[id].resolve, frame, cause);
    forall x
      ensures x in t.log.calls <==> x in t.pending || Claimed(t.log.claims, x)
    {
      ClaimedAppend(s.log.claims, [c], x);
      assert Claimed([c], x) <==> x == id by {
        assert [c][0].id == id;
      }
    }
  }

  lemma CloseClaimsAreOrdered(pending: map<Id, Entry>, order: seq<Id>, id: Id)
    requires forall x | x in order :: x in pending
    ensures Claimed(CloseClaims(pending, order), id) <==> id in order
  {
    if id in order {
      var k :| 0 <= k < |order| && order[k] == id;
      assert CloseClaims(pending, order)[k].id == id;
    }
  }

  lemma CloseKeepsDistinct(s: State, order: seq<Id>)
    requires IsOrder(order, s.pending.Keys)
    requires forall i | 0 <= i < |s.log.claims| :: s.log.claims[i].id !in s.pending
    requires forall i, j | 0 <= i < j < |s.log.claims| :: s.log.claims[i].id != s.log.claims[j].id
    ensures var claims := CloseAll(s, order).log.claims;
            forall i, j | 0 <= i < j < |claims| :: claims[i].id != claims[j].id
  {
    var claims, n := CloseAll(s, order).log.claims, |s.log.claims|;
    forall i, j | 0 <= i < j < |claims|
      ensures claims[i].id != claims[j].id
    {
      if j >= n {
        assert claims[j].id == order[j - n] && order[j - n] in s.pending;
        assert i >= n ==> claims[i].id == order[i - n];
      }
    }
  }

  lemma CloseKeepsLedger(s: State, order: seq<Id>)
    requires LedgerInv(s) && IsOrder(order, s.pending.Keys)
    ensures LedgerInv(CloseAll(s, order))
  {
    var t := CloseAll(s, order);
    forall x
      ensures x in t.log.calls <==> x in t.pending || Claimed(t.log.claims, x)
    {
      ClaimedAppend(s.log.claims, CloseClaims(s.pending, order), x);
      CloseClaimsAreOrdered(s.pending, order, x);
    }
    CloseKeepsDistinct(s, order);
  }

  lemma LedgerStep(s: State, e: Event)
    requires LedgerInv(s) && Enabled(s, e)
    ensures LedgerInv(Step(s, e))
  {
    match e
    case DoTimeoutClaim(id) =>
      if id in s.pending {
        TakeKeepsLedger(s.(work := s.work.(counted := s.work.counted - {id})), id, TimeoutFrame(id), ByTimeout);
      }
    case DoReply(f) =>
      if !f.Call? && f.messageId in s.pending {
        TakeKeepsLedger(s.(tally := s.tally.(replies := s.tally.replies + 1)), f.messageId,
                        Judge(s.pending[f.messageId].kind, f), ByReply);
      }
    case DoClose(token, order) => CloseKeepsLedger(EndClose(s, token), order);
    case _ =>
  }

  lemma TakeKeepsCallbacks(s: State, id: Id, frame: Frame, cause: Cause)
    requires CallbackInv(s) && id in s.pending
    ensures CallbackInv(Take(s, id, frame, cause))
  {}

  lemma TimeoutKeepsCallbacks(s: State, id: Id)
    requires CallbackInv(s)
    ensures CallbackInv(TimeoutClaim(s, id))
  {
    if id in s.pending {
      TakeKeepsCallbacks(s.(work := s.work.(counted := s.work.counted - {id})), id, TimeoutFrame(id), ByTimeout);
    }
  }

  lemma ReplyKeepsCallbacks(s: State, f: Frame)
    requires CallbackInv(s)
    ensures CallbackInv(Reply(s, f))
  {
    if !f.Call? && f.messageId in s.pending {
      TakeKeepsCallbacks(s.(tally := s.tally.(replies := s.tally.replies + 1)), f.messageId,
                         Judge(s.pending[f.messageId].kind, f), ByReply);
    }
  }

  lemma CloseKeepsCallbacks(s: State, order: seq<Id>)
    requires CallbackInv(s) && forall id | id in order :: id in s.pending
    ensures CallbackInv(CloseAll(s, order))
  {}

  lemma InvokeKeepsCallbacks(s: State, i: nat)
    requires CallbackInv(s) && i in s.work.open && i < |s.log.claims|
    ensures CallbackInv(Invoke(s, i))
  {}

  lemma CallbackStep(s: State, e: Event)
    requires CallbackInv(s) && Enabled(s, e)
    ensures CallbackInv(Step(s, e))
  {
    match e
    case DoTimeoutClaim(id) => TimeoutKeepsCallbacks(s, id);
    case DoReply(f) => ReplyKeepsCallbacks(s, f);
    case DoClose(token, order) => CloseKeepsCallbacks(EndClose(s, token), order);
    case DoInvoke(i) => InvokeKeepsCallbacks(s, i);
    case _ =>
  }

  /**
   Exactly-once completion, in every interleaving. A call made is either still pending or claimed, never both and
   never claimed twice; no two callback runs belong to the same call; and once no claimed callback is still to run,
   each call that is not pending has had its callback run.
   */
  lemma ExactlyOnce(states: seq<State>, events: seq<Event>, n: nat, id: Id)
    requires IsRun(states, events) && n < |states| && id in states[n].log.calls
    ensures var s := states[n];
            && (id in s.pending <==> !Claimed(s.log.claims, id))
            && (forall i, j | 0 <= i < |s.log.claims| && 0 <= j < |s.log.claims| ::
                  s.log.claims[i].id == id && s.log.claims[j].id == id ==> i == j)
            && (forall k | 0 <= k < |s.work.ran| :: s.work.ran[k] < |s.log.claims|)
            && (forall k, l | 0 <= k < l < |s.work.ran| ::
                  s.log.claims[s.work.ran[k]].id != s.log.claims[s.work.ran[l]].id)
            && (id !in s.pending && s.work.open == {} ==>
                  exists k :: 0 <= k < |s.work.ran| && s.log.claims[s.work.ran[k]].id == id)
  {
    RunKeepsInv(states, events, n);
    var s := states[n];
    forall k, l | 0 <= k < l < |s.work.ran|
      ensures s.log.claims[s.work.ran[k]].id != s.log.claims[s.work.ran[l]].id
    {
      assert s.work.ran[k] != s.work.ran[l];
    }
    if id !in s.pending && s.work.open == {} {
      var i :| 0 <= i < |s.log.claims| && s.log.claims[i].id == id;
      assert i !in s.work.open;
      var k :| 0 <= k < |s.work.ran| && s.work.ran[k] == i;
      assert s.log.claims[s.work.ran[k]].id == id;
    }
  }

  lemma ClaimsGrow(s: State, e: Event)
    requires Enabled(s, e)
    ensures s.log.claims <= Step(s, e).log.claims
  {}

  /** A claim never changes: once made, it stays where it is in every later state. */
  lemma {:induction false} ClaimsOnlyGrow(states: seq<State>, events: seq<Event>, m: nat, n: nat)
    requires IsRun(states, events) && m <= n < |states|
    ensures states[m].log.claims <= states[n].log.claims
    decreases n
  {
    if m < n {
      var i := n - 1;
      ClaimsOnlyGrow(states, events, m, i);
      RunMoves(states, events, i);
      ClaimsGrow(states[i], events[i]);
    }
  }

  // ------------------------------------------------------------------------------------------
  // No call is left behind: a pending call always has a timer that will still resolve it.
  // ------------------------------------------------------------------------------------------

  ghost predicate TimerInv(s: State) {
    && (forall id | id in s.pending ::
          id in s.timers && (s.timers[id] == Armed || s.timers[id] == Expired || id in s.work.counted))
    && (forall id | id in s.timers :: id in s.log.calls)
    && (forall id | id in s.work.counted :: id in s.timers && s.timers[id] == Fired)
  }

  lemma TimersAfterRegister(s: State, id: Id, request: Request, resolve: Callback)
    requires TimerInv(s) && id !in s.log.calls
    ensures TimerInv(Register(s, id, request, resolve))
  {}

  lemma TimersAfterTake(s: State, id: Id, frame: Frame, cause: Cause)
    requires TimerInv(s) && id in s.pending
    ensures TimerInv(Take(s, id, frame, cause))
  {}

  lemma TimersAfterTimeout(s: State, id: Id)
    requires TimerInv(s) && id in s.work.counted
    ensures TimerInv(TimeoutClaim(s, id))
  {}

  lemma TimersAfterReply(s: State, f: Frame)
    requires TimerInv(s)
    ensures TimerInv(Reply(s, f))
  {
    if !f.Call? && f.messageId in s.pending {
      TimersAfterTake(s.(tally := s.tally.(replies := s.tally.replies + 1)), f.messageId,
                      Judge(s.pending[f.messageId].kind, f), ByReply);
    }
  }

  lemma TimersAfterClose(s: State, order: seq<Id>)
    requires TimerInv(s) && forall id | id in order :: id in s.pending
    ensures TimerInv(CloseAll(s, order))
  {}

  lemma TimersAfterBeat(s: State, token: nat, id: Id)
    requires TimerInv(s) && Enabled(s, DoHeartBeatFire(token, id))
    ensures TimerInv(HeartBeatFire(s, token, id))
  {
    if s.phase == Ready {
      TimersAfterRegister(s, id, HeartBeat, HeartBeatCallback);
    }
  }

  lemma TimerStep(s: State, e: Event)
    requires TimerInv(s) && Enabled(s, e)
    ensures TimerInv(Step(s, e))
  {
    match e
    case DoRegister(id, request, resolve) => TimersAfterRegister(s, id, request, resolve);
    case DoTimeoutClaim(id) => TimersAfterTimeout(s, id);
    case DoReply(f) => TimersAfterReply(s, f);
    case DoClose(token, order) => TimersAfterClose(EndClose(s, token), order);
    case DoHeartBeatFire(token, id) => TimersAfterBeat(s, token, id);
    case _ =>
  }

  // ------------------------------------------------------------------------------------------
  // Accounts.
  // ------------------------------------------------------------------------------------------

  function Count(claims: seq<Claim>, cause: Cause): nat {
    if claims == [] then 0
    else Count(claims[..|claims| - 1], cause) + (if claims[|claims| - 1].cause == cause then 1 else 0)
  }

  predicate IsBy(claims: seq<Claim>, i: nat, cause: Cause) {
    i < |claims| && claims[i].cause == cause
  }

  // How many of the claims listed in ran are by this cause
  function CountRan(claims: seq<Claim>, ran: seq<nat>, cause: Cause): nat {
    if ran == [] then 0
    else CountRan(claims, ran[..|ran| - 1], cause) + (if IsBy(claims, ran[|ran| - 1], cause) then 1 else 0)
  }

  ghost predicate AccountInv(s: State) {
    && |s.log.calls.Keys| == |s.pending.Keys| + |s.log.claims|
    && s.tally.replies == Count(s.log.claims, ByReply) + s.tally.unmatched
    && s.tally.timeouts == Count(s.log.claims, ByTimeout) + s.tally.late + |s.work.counted|
    && s.tally.closedFailures == CountRan(s.log.claims, s.work.ran, ByClose)
  }

  // Claims appended for one cause count for that cause and for no other.
  lemma {:induction false} CountConcat(claims: seq<Claim>, more: seq<Claim>, cause: Cause, c: Cause)
    requires forall i | 0 <= i < |more| :: more[i].cause == cause
    ensures Count(claims + more, c) == Count(claims, c) + (if c == cause then |more| else 0)
  {
    if more == [] {
      assert claims + more == claims;
    } else {
      var k := |more| - 1;
      assert (claims + more)[..|claims| + k] == claims + more[..k];
      CountConcat(claims, more[..k], cause, c);
    }
  }

  lemma {:induction false} CausesPartition(claims: seq<Claim>)
    ensures Count(claims, ByReply) + Count(claims, ByTimeout) + Count(claims, ByClose) == |claims|
  {
    if claims != [] {
      CausesPartition(claims[..|claims| - 1]);
    }
  }

  lemma {:induction false} CountRanStable(claims: seq<Claim>, more: seq<Claim>, ran: seq<nat>, cause: Cause)
    requires forall k | 0 <= k < |ran| :: ran[k] < |claims|
    ensures CountRan(claims + more, ran, cause) == CountRan(claims, ran, cause)
  {
    if ran != [] {
      CountRanStable(claims, more, ran[..|ran| - 1], cause);
    }
  }

  lemma {:induction false} OrderLength(order: seq<Id>, keys: set<Id>)
    requires IsOrder(order, keys)
    ensures |order| == |keys|
  {
    if order == [] {
      assert keys == {};
    } else {
      var k := |order| - 1;
      assert order == order[..k] + [order[k]];
      OrderLength(order[..k], keys - {order[k]});
    }
  }

  lemma TakeAccounts(s: State, id: Id, frame: Frame, cause: Cause)
    requires CallbackInv(s) && id in s.pending
    ensures var t := Take(s, id, frame, cause);
            && |t.pending.Keys| == |s.pending.Keys| - 1
            && |t.log.claims| == |s.log.claims| + 1
            && Count(t.log.claims, ByReply) == Count(s.log.claims, ByReply) + (if cause == ByReply then 1 else 0)
            && Count(t.log.claims, ByTimeout) == Count(s.log.claims, ByTimeout) + (if cause == ByTimeout then 1 else 0)
            && CountRan(t.log.claims, t.work.ran, ByClose) == CountRan(s.log.claims, s.work.ran, ByClose)
  {
    var t := Take(s, id, frame, cause);
    var more := [Claim(id, s.pending[id].resolve, frame, cause)];
    assert t.pending.Keys == s.pending.Keys - {id};
    assert t.log.claims == s.log.claims + more;
    CountConcat(s.log.claims, more, cause, ByReply);
    CountConcat(s.log.claims, more, cause, ByTimeout);
    CountRanStable(s.log.claims, more, s.work.ran, ByClose);
  }

  lemma TimeoutAccounts(s: State, id: Id)
    requires AccountInv(s) && CallbackInv(s) && id in s.work.counted
    ensures AccountInv(TimeoutClaim(s, id))
  {
    var t := s.(work := s.work.(counted := s.work.counted - {id}));
    if id in s.pending {
      TakeAccounts(t, id, TimeoutFrame(id), ByTimeout);
    }
  }

  lemma ReplyAccounts(s: State, f: Frame)
    requires AccountInv(s) && CallbackInv(s)
    ensures AccountInv(Reply(s, f))
  {
    var t := s.(tally := s.tally.(replies := s.tally.replies + 1));
    if !f.Call? && f.messageId in s.pending {
      TakeAccounts(t, f.messageId, Judge(s.pending[f.messageId].kind, f), ByReply);
    }
  }

  lemma CloseAccounts(s: State, order: seq<Id>)
    requires AccountInv(s) && CallbackInv(s) && IsOrder(order, s.pending.Keys)
    ensures AccountInv(CloseAll(s, order))
  {
    var claims, more := s.log.claims, CloseClaims(s.pending, order);
    OrderLength(order, s.pending.Keys);
    CountConcat(claims, more, ByClose, ByReply);
    CountConcat(claims, more, ByClose, ByTimeout);
    CountRanStable(claims, more, s.work.ran, ByClose);
    assert CloseAll(s, order).pending.Keys == {};
  }

  lemma InvokeAccounts(s: State, i: nat)
    requires AccountInv(s) && i < |s.log.claims|
    ensures AccountInv(Invoke(s, i))
  {
    assert (s.work.ran + [i])[..|s.work.ran|] == s.work.ran;
  }

  lemma RegisterAccounts(s: State, id: Id, request: Request, resolve: Callback)
    requires AccountInv(s) && LedgerInv(s) && id !in s.log.calls
    ensures AccountInv(Register(s, id, request, resolve))
  {
    var t := Register(s, id, request, resolve);
    assert t.log.calls.Keys == s.log.calls.Keys + {id};
    assert t.pending.Keys == s.pending.Keys + {id};
  }

  lemma BeatAccounts(s: State, token: nat, id: Id)
    requires AccountInv(s) && LedgerInv(s) && Enabled(s, DoHeartBeatFire(token, id))
    ensures AccountInv(HeartBeatFire(s, token, id))
  {
    if s.phase == Ready {
      RegisterAccounts(s, id, HeartBeat, HeartBeatCallback);
    }
  }

  lemma CountAccounts(s: State, id: Id)
    requires AccountInv(s) && TimerInv(s) && Enabled(s, DoTimeoutCount(id))
    ensures AccountInv(TimeoutCount(s, id))
  {
    assert id !in s.work.counted;
  }

  lemma AccountStep(s: State, e: Event)
    requires AccountInv(s) && CallbackInv(s) && Enabled(s, e)
    requires LedgerInv(s) && TimerInv(s)
    ensures AccountInv(Step(s, e))
  {
    match e
    case DoRegister(id, request, resolve) => RegisterAccounts(s, id, request, resolve);
    case DoHeartBeatFire(token, id) => BeatAccounts(s, token, id);
    case DoTimeoutCount(id) => CountAccounts(s, id);
    case DoTimeoutClaim(id) => TimeoutAccounts(s, id);
    case DoReply(f) => ReplyAccounts(s, f);
    case DoClose(token, order) => CloseAccounts(EndClose(s, token), order);
    case DoInvoke(i) => InvokeAccounts(s, i);
    case _ =>
  }

  lemma {:induction false} CountRanOfNone(ran: seq<nat>, cause: Cause)
    ensures CountRan([], ran, cause) == 0
  {
    if ran != [] {
      CountRanOfNone(ran[..|ran| - 1], cause);
    }
  }

  // When the callbacks run are all of them, each once, counting them is counting the claims.
  lemma {:induction false} RanIsAll(claims: seq<Claim>, ran: seq<nat>, cause: Cause)
    requires forall k, l | 0 <= k < l < |ran| :: ran[k] != ran[l]
    requires forall i :: i in ran <==> 0 <= i < |claims|
    ensures CountRan(claims, ran, cause) == Count(claims, cause)
  {
    if claims == [] {
      CountRanOfNone(ran, cause);
    } else {
      var last := |claims| - 1;
      assert last in ran;
      var k :| 0 <= k < |ran| && ran[k] == last;
      var rest := ran[..k] + ran[k + 1..];
      CountRanRemove(claims, ran, k, cause);
      RemoveLast(ran, k, rest);
      RanIsAll(claims[..last], rest, cause);
      assert claims == claims[..last] + [claims[last]];
      CountRanStable(claims[..last], [claims[last]], rest, cause);
    }
  }

  lemma RemoveLast(ran: seq<nat>, k: nat, rest: seq<nat>)
    requires k < |ran| && rest == ran[..k] + ran[k + 1..]
    requires forall k, l | 0 <= k < l < |ran| :: ran[k] != ran[l]
    requires forall i :: i in ran <==> 0 <= i < ran[k] + 1
    ensures forall i :: i in rest <==> 0 <= i < ran[k]
    ensures forall j | 0 <= j < |rest| :: rest[j] < ran[k]
    ensures forall j, l | 0 <= j < l < |rest| :: rest[j] != rest[l]
  {
    var last := ran[k];
    forall i
      ensures i in rest <==> 0 <= i < last
    {
      if 0 <= i < last {
        assert i in ran;
        var j :| 0 <= j < |ran| && ran[j] == i;
        assert rest[if j < k then j else j - 1] == i;
      }
      if i in rest {
        var j :| 0 <= j < |rest| && rest[j] == i;
        assert ran[if j < k then j else j + 1] == i;
        assert i in ran;
      }
    }
    forall j | 0 <= j < |rest|
      ensures rest[j] < last
    {
      assert rest[j] in rest;
    }
  }

  lemma {:induction false} CountRanRemove(claims: seq<Claim>, ran: seq<nat>, k: nat, cause: Cause)
    requires k < |ran|
    ensures CountRan(claims, ran, cause)
         == CountRan(claims, ran[..k] + ran[k + 1..], cause) + (if IsBy(claims, ran[k], cause) then 1 else 0)
  {
    var last := |ran| - 1;
    var rest := ran[..k] + ran[k + 1..];
    if k == last {
      assert rest == ran[..last];
    } else {
      CountRanRemove(claims, ran[..last], k, cause);
      assert rest[..last - 1] == ran[..last][..k] + ran[..last][k + 1..];
      assert rest[last - 1] == ran[last];
    }
  }

  // The accounts balance: what AccountInv says, with the causes added up.
  ghost predicate Balanced(s: State) {
    var reply, timeout := Count(s.log.claims, ByReply), Count(s.log.claims, ByTimeout);
    var close := Count(s.log.claims, ByClose);
    && |s.log.calls.Keys| == |s.pending.Keys| + reply + timeout + close
    && s.tally.replies == reply + s.tally.unmatched
    && s.tally.timeouts == timeout + s.tally.late + |s.work.counted|
    && s.tally.closedFailures == CountRan(s.log.claims, s.work.ran, ByClose)
    && (s.work.open == {} ==> s.tally.closedFailures == close)
  }

  lemma InvAccounts(s: State)
    requires AccountInv(s) && CallbackInv(s)
    ensures Balanced(s)
  {
    CausesPartition(s.log.claims);
    if s.work.open == {} {
      forall i
        ensures i in s.work.ran <==> 0 <= i < |s.log.claims|
      {
        assert i !in s.work.open;
      }
      RanIsAll(s.log.claims, s.work.ran, ByClose);
    }
  }

  /**
   The accounts balance in every interleaving: calls made = pending + resolved by reply, timeout and close; reply
   frames handled = resolved by reply + unmatched; timeouts_total = resolved by timeout + handlers that found nothing
   + handlers that have not looked yet; connection_closed_failures_total = callbacks run with ConnectionClosed, which
   is all that were resolved by close once no claimed callback is still to run.
   */
  lemma AccountsBalance(states: seq<State>, events: seq<Event>, n: nat)
    requires IsRun(states, events) && n < |states|
    ensures Balanced(states[n])
  {
    RunKeepsInv(states, events, n);
    InvAccounts(states[n]);
  }

  // ------------------------------------------------------------------------------------------
  // The wire: each call's line is handed to the transport once.
  // ------------------------------------------------------------------------------------------

  ghost predicate WireInv(s: State) {
    && DistinctIds(s.log.lines)
    && (forall i | 0 <= i < |s.log.lines| ::
          && s.log.lines[i].messageId !in s.work.unsent
          && s.log.lines[i].messageId in s.log.calls
          && s.log.lines[i] == CreateCall(s.log.lines[i].messageId, s.log.calls[s.log.lines[i].messageId]))
    && (forall id | id in s.work.unsent :: id in s.log.calls && s.work.unsent[id] == CreateCall(id, s.log.calls[id]))
  }

  lemma WireStep(s: State, e: Event)
    requires WireInv(s) && Enabled(s, e)
    ensures WireInv(Step(s, e))
  {}

  // ------------------------------------------------------------------------------------------
  // What a callback is given.
  // ------------------------------------------------------------------------------------------

  // The frame fits the cause: a close and a timeout have their own errors, and a result came as a reply that the
  // validator of the call's own request accepts.
  ghost predicate FrameFits(c: Claim, request: Request) {
    && c.frame.messageId == c.id && !c.frame.Call?
    && (c.cause == ByTimeout ==> c.frame.CallError? && c.frame.errorCode == "Timeout")
    && (c.cause == ByClose ==> c.frame.CallError? && c.frame.errorCode == "ConnectionClosed")
    && (c.frame.CallResult? ==> c.cause == ByReply && DecodeConfirmation(request.Kind(), c.frame.payload).Ok?)
    && (c.resolve == BootCallback ==> request == BOOT)
    && (c.resolve == HeartBeatCallback ==> request == HeartBeat)
  }

  ghost predicate FrameInv(s: State) {
    && (forall id | id in s.pending ::
          && id in s.log.calls && s.pending[id].kind == s.log.calls[id].Kind()
          && (s.pending[id].resolve == BootCallback ==> s.log.calls[id] == BOOT)
          && (s.pending[id].resolve == HeartBeatCallback ==> s.log.calls[id] == HeartBeat))
    && (forall i | 0 <= i < |s.log.claims| ::
          s.log.claims[i].id in s.log.calls && FrameFits(s.log.claims[i], s.log.calls[s.log.claims[i].id]))
  }

  lemma FramesAfterRegister(s: State, id: Id, request: Request, resolve: Callback)
    requires FrameInv(s) && Enabled(s, DoRegister(id, request, resolve))
    ensures FrameInv(Register(s, id, request, resolve))
  {}

  lemma FramesAfterTake(s: State, id: Id, frame: Frame, cause: Cause)
    requires FrameInv(s) && id in s.pending
    requires FrameFits(Claim(id, s.pending[id].resolve, frame, cause), s.log.calls[id])
    ensures FrameInv(Take(s, id, frame, cause))
  {}

  lemma FramesAfterTimeout(s: State, id: Id)
    requires FrameInv(s)
    ensures FrameInv(TimeoutClaim(s, id))
  {
    if id in s.pending {
      FramesAfterTake(s.(work := s.work.(counted := s.work.counted - {id})), id, TimeoutFrame(id), ByTimeout);
    }
  }

  lemma FramesAfterReply(s: State, f: Frame)
    requires FrameInv(s)
    ensures FrameInv(Reply(s, f))
  {
    if !f.Call? && f.messageId in s.pending {
      FramesAfterTake(s.(tally := s.tally.(replies := s.tally.replies + 1)), f.messageId,
                      Judge(s.pending[f.messageId].kind, f), ByReply);
    }
  }

  lemma FramesAfterClose(s: State, order: seq<Id>)
    requires FrameInv(s) && forall id | id in order :: id in s.pending
    ensures FrameInv(CloseAll(s, order))
  {
    var t := CloseAll(s, order);
    forall i | 0 <= i < |t.log.claims|
      ensures t.log.claims[i].id in t.log.calls && FrameFits(t.log.claims[i], t.log.calls[t.log.claims[i].id])
    {
      if i < |s.log.claims| {
        assert t.log.claims[i] == s.log.claims[i];
      } else {
        assert order[i - |s.log.claims|] in order;
      }
    }
  }

  lemma FramesAfterBeat(s: State, token: nat, id: Id)
    requires FrameInv(s) && Enabled(s, DoHeartBeatFire(token, id))
    ensures FrameInv(HeartBeatFire(s, token, id))
  {
    if s.phase == Ready {
      FramesAfterRegister(s, id, HeartBeat, HeartBeatCallback);
    }
  }

  lemma FrameStep(s: State, e: Event)
    requires FrameInv(s) && Enabled(s, e)
    ensures FrameInv(Step(s, e))
  {
    match e
    case DoRegister(id, request, resolve) => FramesAfterRegister(s, id, request, resolve);
    case DoTimeoutClaim(id) => FramesAfterTimeout(s, id);
    case DoReply(f) => FramesAfterReply(s, f);
    case DoClose(token, order) => FramesAfterClose(EndClose(s, token), order);
    case DoHeartBeatFire(token, id) => FramesAfterBeat(s, token, id);
    case _ =>
  }

  // ------------------------------------------------------------------------------------------
  // Heartbeat timers.
  // ------------------------------------------------------------------------------------------

  ghost predicate BeatInv(b: HeartBeats) {
    && (forall token | token in b.armed :: b.owner == Owns(token))
    && (b.owner.Owns? ==> b.owner.token < b.next)
  }

  // ------------------------------------------------------------------------------------------
  // All of it holds in every run.
  // ------------------------------------------------------------------------------------------

  ghost predicate Inv(s: State) {
    LedgerInv(s) && CallbackInv(s) && TimerInv(s) && AccountInv(s) && WireInv(s) && FrameInv(s) && BeatInv(s.beats)
  }

  lemma InitialInv()
    ensures Inv(INITIAL)
  {
    assert INITIAL.log.calls.Keys == {} && INITIAL.pending.Keys == {};
  }

  lemma StepKeepsInv(s: State, e: Event)
    requires Inv(s) && Enabled(s, e)
    ensures Inv(Step(s, e))
  {
    LedgerStep(s, e);
    CallbackStep(s, e);
    TimerStep(s, e);
    AccountStep(s, e);
    WireStep(s, e);
    FrameStep(s, e);
    BeatStep(s, e);
  }

  lemma MoveKeepsInv(s: State, e: Event, s': State)
    requires Inv(s) && Moves(s, e, s')
    ensures Inv(s')
  {
    StepKeepsInv(s, e);
  }

  lemma BeatStep(s: State, e: Event)
    requires BeatInv(s.beats) && Enabled(s, e)
    ensures BeatInv(Step(s, e).beats)
  {}

  /**
   In every interleaving, besides the ledgers and accounts above: a pending call's timer is waiting, or its handler is
   queued, or that handler is about to take the lock (TimerInv); each line is handed to the transport at most once
   (WireInv); a callback is given a frame for its own call, and a result only of the type that call expects (FrameInv).
   */
  lemma {:induction false} RunKeepsInv(states: seq<State>, events: seq<Event>, n: nat)
    requires IsRun(states, events) && n < |states|
    ensures Inv(states[n])
  {
    if n == 0 {
      InitialInv();
    } else {
      var i := n - 1;
      RunKeepsInv(states, events, i);
      RunMoves(states, events, i);
      MoveKeepsInv(states[i], events[i], states[i + 1]);
    }
  }

  /** At most one heartbeat timer is ever armed, although handlers of replaced timers may still be queued. */
  lemma OneHeartBeatTimer(states: seq<State>, events: seq<Event>, n: nat, t: nat, u: nat)
    requires IsRun(states, events) && n < |states|
    requires t in states[n].beats.armed && u in states[n].beats.armed
    ensures t == u
  {
    RunKeepsInv(states, events, n);
  }
}
