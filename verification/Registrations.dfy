/**
 Exactly once for each registration, with message ids that may repeat. The runs here are wider than those of module
 SessionRuns: any id may be used again at any time, and the timeout handler of any id may run at any time.
 */
module Registrations {
  import opened OcppModel
  import opened Session
  import opened SessionRuns

  ghost predicate CanStep(s: State, e: Event) {
    match e
    case DoTransmit(id) => id in s.work.unsent
    case DoClose(_, order) => IsOrder(order, s.pending.Keys)
    case DoInvoke(i) => i in s.work.open && i < |s.log.claims|
    case DoHeartBeatExpire(token) => token in s.beats.armed
    case DoHeartBeatFire(token, _) => token in s.beats.queued
    case _ => true
  }

  ghost function AnyStep(s: State, e: Event): State
    requires CanStep(s, e)
  {
    match e
    case DoRegister(id, request, resolve) => Register(s, id, request, resolve)
    case DoTransmit(id) => Transmit(s, id)
    case DoExpire(id) => s.(timers := s.timers[id := Expired])
    case DoTimeoutCount(id) => TimeoutCount(s, id)
    case DoTimeoutClaim(id) => TimeoutClaim(s, id)
    case DoReply(f) => Reply(s, f)
    case DoCloseBegin => BeginClose(s)
    case DoClose(token, order) => CloseAll(EndClose(s, token), order)
    case DoInvoke(i) => Invoke(s, i)
    case DoConnected => s.(phase := Booting)
    case DoStartHeartBeat(interval) => s.(beats := StartHeartBeat(s.beats, interval))
    case DoHeartBeatExpire(token) => s.(beats := HeartBeatExpire(s.beats, token))
    case DoHeartBeatFire(token, id) => HeartBeatFire(s, token, id)
  }

  /** The steps of a session with fresh ids are among these. */
  lemma FreshStepsAreSteps(s: State, e: Event)
    requires Enabled(s, e)
    ensures CanStep(s, e) && AnyStep(s, e) == Step(s, e)
  {}

  // A call as it was made: its id and its callback
  datatype Registration = Registration(id: Id, resolve: Callback)

  // The session, the calls made in order, which of them each pending entry and each claim belongs to, and those whose
  // id was already pending when they were made
  datatype Tracked = Tracked(s: State, made: seq<Registration>, owner: map<Id, nat>, claimed: seq<nat>, lost: set<nat>)

  const START := Tracked(INITIAL, [], map[], [], {})

  // The call that a step makes
  datatype Making = Nothing | Makes(call: Registration)

  function MadeBy(s: State, e: Event): Making {
    match e
    case DoRegister(id, _, resolve) => Makes(Registration(id, resolve))
    case DoHeartBeatFire(_, id) => if s.phase == Ready then Makes(Registration(id, HeartBeatCallback)) else Nothing
    case _ => Nothing
  }

  // The ids whose entries a step claims, in order
  function ClaimedBy(s: State, e: Event): seq<Id> {
    match e
    case DoTimeoutClaim(id) => if id in s.pending then [id] else []
    case DoReply(f) => if !f.Call? && f.messageId in s.pending then [f.messageId] else []
    case DoClose(_, order) => order
    case _ => []
  }

  function Owners(owner: map<Id, nat>, ids: seq<Id>): (ts: seq<nat>)
    requires forall i | 0 <= i < |ids| :: ids[i] in owner
    ensures |ts| == |ids| && forall i | 0 <= i < |ids| :: ts[i] == owner[ids[i]]
  {
    seq(|ids|, i requires 0 <= i < |ids| => owner[ids[i]])
  }

  // A call is made, and the session is s after it.
  function Number(t: Tracked, s: State, call: Registration): Tracked {
    var n := |t.made|;
    if call.id in t.s.pending then t.(s := s, made := t.made + [call], lost := t.lost + {n})
    else t.(s := s, made := t.made + [call], owner := t.owner[call.id := n])
  }

  // The entries of these ids are claimed, and the session is s after it.
  function Settle(t: Tracked, s: State, ids: seq<Id>): Tracked
    requires forall i | 0 <= i < |ids| :: ids[i] in t.owner
  {
    t.(s := s, claimed := t.claimed + Owners(t.owner, ids),
       owner := map id | id in t.owner && id !in ids :: t.owner[id])
  }

  ghost function Track(t: Tracked, e: Event): Tracked
    requires CanStep(t.s, e) && forall i | 0 <= i < |ClaimedBy(t.s, e)| :: ClaimedBy(t.s, e)[i] in t.owner
  {
    match MadeBy(t.s, e)
    case Makes(call) => Number(t, AnyStep(t.s, e), call)
    case Nothing => Settle(t, AnyStep(t.s, e), ClaimedBy(t.s, e))
  }

  // Call n is the one its id is pending for.
  predicate IsPending(t: Tracked, n: nat)
    requires n < |t.made|
  {
    t.made[n].id in t.owner && t.owner[t.made[n].id] == n
  }

  ghost predicate OwnersFit(t: Tracked) {
    && t.owner.Keys == t.s.pending.Keys
    && forall id | id in t.owner ::
         t.owner[id] < |t.made| && t.made[t.owner[id]] == Registration(id, t.s.pending[id].resolve)
  }

  ghost predicate ClaimsFit(t: Tracked) {
    && |t.claimed| == |t.s.log.claims|
    && forall i | 0 <= i < |t.claimed| ::
         && t.claimed[i] < |t.made|
         && t.made[t.claimed[i]] == Registration(t.s.log.claims[i].id, t.s.log.claims[i].resolve)
  }

  // No call is claimed twice; pending, claimed and lost exclude each other, and one of them holds.
  ghost predicate EachOnce(t: Tracked) {
    && (forall i, j | 0 <= i < j < |t.claimed| :: t.claimed[i] != t.claimed[j])
    && (forall i | 0 <= i < |t.claimed| :: t.claimed[i] !in t.lost)
    && (forall id | id in t.owner :: t.owner[id] !in t.lost && t.owner[id] !in t.claimed)
    && (forall n | n in t.lost :: n < |t.made|)
    && (forall n: nat | n < |t.made| :: n in t.lost || n in t.claimed || IsPending(t, n))
  }

  ghost predicate TrackInv(t: Tracked) {
    OwnersFit(t) && ClaimsFit(t) && EachOnce(t) && CallbackInv(t.s)
  }

  lemma ClaimedArePending(t: Tracked, e: Event)
    requires OwnersFit(t) && CanStep(t.s, e)
    ensures forall i | 0 <= i < |ClaimedBy(t.s, e)| :: ClaimedBy(t.s, e)[i] in t.owner
  {
    if e.DoClose? {
      forall i | 0 <= i < |e.order|
        ensures e.order[i] in t.s.pending.Keys
      {
        assert e.order[i] in e.order;
      }
    }
  }

  // What a step does to the pending table and the claims
  lemma TableStep(s: State, e: Event)
    requires CanStep(s, e)
    ensures var s', ids := AnyStep(s, e), ClaimedBy(s, e);
            && (MadeBy(s, e).Nothing? ==>
                  && (forall id :: id in s'.pending <==> id in s.pending && id !in ids)
                  && (forall id | id in s'.pending :: s'.pending[id] == s.pending[id]))
            && (MadeBy(s, e).Makes? && MadeBy(s, e).call.id in s.pending ==> s'.pending == s.pending)
            && (MadeBy(s, e).Makes? && MadeBy(s, e).call.id !in s.pending ==>
                  && s'.pending.Keys == s.pending.Keys + {MadeBy(s, e).call.id}
                  && s'.pending[MadeBy(s, e).call.id].resolve == MadeBy(s, e).call.resolve
                  && (forall id | id in s.pending :: s'.pending[id] == s.pending[id]))
  {}

  // The claims of t are those of s and one for each of ids, with its entry's callback.
  ghost predicate ClaimsAdded(s: State, t: State, ids: seq<Id>) {
    && |t.log.claims| == |s.log.claims| + |ids| && s.log.claims <= t.log.claims
    && forall i | 0 <= i < |ids| ::
         && ids[i] in s.pending
         && t.log.claims[|s.log.claims| + i].id == ids[i]
         && t.log.claims[|s.log.claims| + i].resolve == s.pending[ids[i]].resolve
  }

  lemma ClaimsAfterClose(s: State, order: seq<Id>)
    requires IsOrder(order, s.pending.Keys)
    ensures (forall id | id in order :: id in s.pending) && ClaimsAdded(s, CloseAll(s, order), order)
  {
    assert forall i | 0 <= i < |order| :: order[i] in order;
  }

  lemma ClaimsStep(s: State, e: Event)
    requires CanStep(s, e)
    ensures ClaimsAdded(s, AnyStep(s, e), ClaimedBy(s, e))
  {
    match e
    case DoClose(token, order) => ClaimsAfterClose(EndClose(s, token), order);
    case _ =>
  }

  lemma ClaimedAreDistinct(s: State, e: Event)
    requires CanStep(s, e)
    ensures forall i, j | 0 <= i < j < |ClaimedBy(s, e)| :: ClaimedBy(s, e)[i] != ClaimedBy(s, e)[j]
    ensures MadeBy(s, e).Makes? ==> ClaimedBy(s, e) == []
  {}

  lemma CallbacksStep(s: State, e: Event)
    requires CallbackInv(s) && CanStep(s, e)
    ensures CallbackInv(AnyStep(s, e))
  {
    match e
    case DoTimeoutClaim(id) => TimeoutKeepsCallbacks(s, id);
    case DoReply(f) => ReplyKeepsCallbacks(s, f);
    case DoClose(token, order) =>
      assert forall id | id in order :: id in s.pending.Keys;
      CloseKeepsCallbacks(EndClose(s, token), order);
    case DoInvoke(i) => InvokeKeepsCallbacks(s, i);
    case _ =>
  }

  lemma OwnersStep(t: Tracked, e: Event)
    requires OwnersFit(t) && CanStep(t.s, e)
    requires forall i | 0 <= i < |ClaimedBy(t.s, e)| :: ClaimedBy(t.s, e)[i] in t.owner
    ensures OwnersFit(Track(t, e))
  {
    TableStep(t.s, e);
    match MadeBy(t.s, e)
    case Makes(call) => OwnersAfterMaking(t, AnyStep(t.s, e), call);
    case Nothing => OwnersAfterClaiming(t, AnyStep(t.s, e), ClaimedBy(t.s, e));
  }

  lemma OwnersAfterMaking(t: Tracked, s: State, call: Registration)
    requires OwnersFit(t)
    requires call.id in t.s.pending ==> s.pending == t.s.pending
    requires call.id !in t.s.pending ==>
               && s.pending.Keys == t.s.pending.Keys + {call.id} && s.pending[call.id].resolve == call.resolve
               && forall id | id in t.s.pending :: s.pending[id] == t.s.pending[id]
    ensures OwnersFit(Number(t, s, call))
  {}

  lemma OwnersAfterClaiming(t: Tracked, s: State, ids: seq<Id>)
    requires OwnersFit(t) && forall i | 0 <= i < |ids| :: ids[i] in t.owner
    requires forall id :: id in s.pending <==> id in t.s.pending && id !in ids
    requires forall id | id in s.pending :: s.pending[id] == t.s.pending[id]
    ensures OwnersFit(Settle(t, s, ids))
  {}

  lemma ClaimsAfterClaiming(t: Tracked, s: State, ids: seq<Id>)
    requires OwnersFit(t) && ClaimsFit(t) && ClaimsAdded(t.s, s, ids) && forall i | 0 <= i < |ids| :: ids[i] in t.owner
    ensures ClaimsFit(Settle(t, s, ids))
  {
    var t', n := Settle(t, s, ids), |t.claimed|;
    forall i | 0 <= i < |t'.claimed|
      ensures t'.claimed[i] < |t'.made|
      ensures t'.made[t'.claimed[i]] == Registration(t'.s.log.claims[i].id, t'.s.log.claims[i].resolve)
    {
      if i < n {
        assert t'.s.log.claims[i] == t.s.log.claims[i];
      } else {
        assert t'.claimed[i] == t.owner[ids[i - n]];
      }
    }
  }

  lemma ClaimsFitStep(t: Tracked, e: Event)
    requires OwnersFit(t) && ClaimsFit(t) && CanStep(t.s, e)
    requires forall i | 0 <= i < |ClaimedBy(t.s, e)| :: ClaimedBy(t.s, e)[i] in t.owner
    ensures ClaimsFit(Track(t, e))
  {
    ClaimsStep(t.s, e);
    ClaimedAreDistinct(t.s, e);
    if MadeBy(t.s, e).Nothing? {
      ClaimsAfterClaiming(t, AnyStep(t.s, e), ClaimedBy(t.s, e));
    }
  }

  // A call is made: its number is new.
  lemma OnceAfterMaking(t: Tracked, s: State, call: Registration)
    requires OwnersFit(t) && ClaimsFit(t) && EachOnce(t)
    ensures EachOnce(Number(t, s, call))
  {
    var t' := Number(t, s, call);
    forall n: nat | n < |t'.made|
      ensures n in t'.lost || n in t'.claimed || IsPending(t', n)
    {
      if n < |t.made| {
        assert n in t.lost || n in t.claimed || IsPending(t, n);
      }
    }
  }

  // Entries are claimed: each claim takes the number of its entry.
  lemma OnceAfterClaiming(t: Tracked, s: State, ids: seq<Id>)
    requires OwnersFit(t) && ClaimsFit(t) && EachOnce(t) && forall i | 0 <= i < |ids| :: ids[i] in t.owner
    requires forall i, j | 0 <= i < j < |ids| :: ids[i] != ids[j]
    ensures EachOnce(Settle(t, s, ids))
  {
    SettledOnce(t, s, ids);
    SettledOrLeft(t, s, ids);
    LeftUnclaimed(t, s, ids);
  }

  lemma SettledOnce(t: Tracked, s: State, ids: seq<Id>)
    requires OwnersFit(t) && EachOnce(t) && forall i | 0 <= i < |ids| :: ids[i] in t.owner
    requires forall i, j | 0 <= i < j < |ids| :: ids[i] != ids[j]
    ensures var claimed := Settle(t, s, ids).claimed;
            && (forall i, j | 0 <= i < j < |claimed| :: claimed[i] != claimed[j])
            && (forall i | 0 <= i < |claimed| :: claimed[i] !in t.lost)
  {
    var claimed, n := Settle(t, s, ids).claimed, |t.claimed|;
    DistinctOwners(t, ids);
    forall i | 0 <= i < |claimed|
      ensures claimed[i] !in t.lost
      ensures i >= n ==> claimed[i] == t.owner[ids[i - n]] && claimed[i] !in t.claimed
    {
      assert i >= n ==> claimed[i] == t.owner[ids[i - n]];
    }
    forall i, j | 0 <= i < j < |claimed|
      ensures claimed[i] != claimed[j]
    {
      assert i < n ==> claimed[i] in t.claimed;
    }
  }

  lemma LeftUnclaimed(t: Tracked, s: State, ids: seq<Id>)
    requires OwnersFit(t) && EachOnce(t) && forall i | 0 <= i < |ids| :: ids[i] in t.owner
    ensures var t' := Settle(t, s, ids); forall id | id in t'.owner :: t'.owner[id] !in t'.claimed
  {
    var t' := Settle(t, s, ids);
    forall id | id in t'.owner
      ensures t'.owner[id] !in t'.claimed
    {
      assert forall i | 0 <= i < |ids| :: t.owner[ids[i]] != t.owner[id];
    }
  }

  lemma SettledOrLeft(t: Tracked, s: State, ids: seq<Id>)
    requires EachOnce(t) && forall i | 0 <= i < |ids| :: ids[i] in t.owner
    ensures var t' := Settle(t, s, ids);
            forall m: nat | m < |t'.made| :: m in t'.lost || m in t'.claimed || IsPending(t', m)
  {
    var t', n := Settle(t, s, ids), |t.claimed|;
    forall m: nat | m < |t'.made|
      ensures m in t'.lost || m in t'.claimed || IsPending(t', m)
    {
      if IsPending(t, m) && t.made[m].id in ids {
        var i :| 0 <= i < |ids| && ids[i] == t.made[m].id;
        assert t'.claimed[n + i] == m;
      } else if m in t.claimed {
        var i :| 0 <= i < n && t.claimed[i] == m;
        assert t'.claimed[i] == m;
      }
    }
  }

  lemma DistinctOwners(t: Tracked, ids: seq<Id>)
    requires OwnersFit(t) && forall i | 0 <= i < |ids| :: ids[i] in t.owner
    requires forall i, j | 0 <= i < j < |ids| :: ids[i] != ids[j]
    ensures forall i, j | 0 <= i < j < |ids| :: t.owner[ids[i]] != t.owner[ids[j]]
  {}

  lemma TrackKeepsInv(t: Tracked, e: Event)
    requires TrackInv(t) && CanStep(t.s, e)
    ensures forall i | 0 <= i < |ClaimedBy(t.s, e)| :: ClaimedBy(t.s, e)[i] in t.owner
    ensures TrackInv(Track(t, e))
  {
    ClaimedArePending(t, e);
    ClaimedAreDistinct(t.s, e);
    OwnersStep(t, e);
    ClaimsFitStep(t, e);
    CallbacksStep(t.s, e);
    match MadeBy(t.s, e)
    case Makes(call) => OnceAfterMaking(t, AnyStep(t.s, e), call);
    case Nothing => OnceAfterClaiming(t, AnyStep(t.s, e), ClaimedBy(t.s, e));
  }

  ghost predicate Tracks(t: Tracked, e: Event, t': Tracked) {
    && CanStep(t.s, e) && (forall i | 0 <= i < |ClaimedBy(t.s, e)| :: ClaimedBy(t.s, e)[i] in t.owner)
    && t' == Track(t, e)
  }

  ghost predicate IsTrackedRun(ts: seq<Tracked>, events: seq<Event>) {
    && |ts| == |events| + 1
    && ts[0] == START
    && forall i {:trigger events[i]} | 0 <= i < |events| :: Tracks(ts[i], events[i], ts[i + 1])
  }

  lemma RunTracks(ts: seq<Tracked>, events: seq<Event>, i: nat)
    requires IsTrackedRun(ts, events) && i < |events|
    ensures Tracks(ts[i], events[i], ts[i + 1])
  {}

  lemma TracksKeepInv(t: Tracked, e: Event, t': Tracked)
    requires TrackInv(t) && Tracks(t, e, t')
    ensures TrackInv(t')
  {
    TrackKeepsInv(t, e);
  }

  lemma {:induction false} TrackedRunKeepsInv(ts: seq<Tracked>, events: seq<Event>, n: nat)
    requires IsTrackedRun(ts, events) && n < |ts|
    ensures TrackInv(ts[n])
  {
    if n > 0 {
      var i := n - 1;
      TrackedRunKeepsInv(ts, events, i);
      RunTracks(ts, events, i);
      TracksKeepInv(ts[i], events[i], ts[i + 1]);
    }
  }

  /**
   Exactly once for each call made, whatever ids are used and however often. A call is lost, pending, or claimed with
   its own id and callback: exactly one of these, and claimed only once. No two callback runs are for the same call.
   */
  lemma ExactlyOncePerCall(ts: seq<Tracked>, events: seq<Event>, n: nat, c: nat)
    requires IsTrackedRun(ts, events) && n < |ts| && c < |ts[n].made|
    ensures var t := ts[n];
            && (c in t.lost <==> !IsPending(t, c) && c !in t.claimed)
            && (IsPending(t, c) ==> c !in t.claimed)
            && (forall i, j | 0 <= i < |t.claimed| && 0 <= j < |t.claimed| ::
                  t.claimed[i] == c && t.claimed[j] == c ==> i == j)
            && |t.claimed| == |t.s.log.claims|
            && (forall i | 0 <= i < |t.claimed| :: t.claimed[i] == c ==>
                  t.s.log.claims[i].id == t.made[c].id && t.s.log.claims[i].resolve == t.made[c].resolve)
            && (forall k | 0 <= k < |t.s.work.ran| :: t.s.work.ran[k] < |t.claimed|)
            && (forall k, l | 0 <= k < l < |t.s.work.ran| :: t.claimed[t.s.work.ran[k]] != t.claimed[t.s.work.ran[l]])
  {
    TrackedRunKeepsInv(ts, events, n);
    var t := ts[n];
    forall k, l | 0 <= k < l < |t.s.work.ran|
      ensures t.claimed[t.s.work.ran[k]] != t.claimed[t.s.work.ran[l]]
    {
      assert t.s.work.ran[k] != t.s.work.ran[l];
    }
  }

  lemma LostStays(t: Tracked, e: Event, t': Tracked, c: nat)
    requires Tracks(t, e, t') && c < |t.made|
    ensures c < |t'.made| && (c in t'.lost <==> c in t.lost)
  {}

  lemma {:induction false} LostStaysInRun(ts: seq<Tracked>, events: seq<Event>, m: nat, n: nat, c: nat)
    requires IsTrackedRun(ts, events) && m <= n < |ts| && c < |ts[m].made|
    ensures c < |ts[n].made| && (c in ts[n].lost <==> c in ts[m].lost)
    decreases n
  {
    if m < n {
      var i := n - 1;
      LostStaysInRun(ts, events, m, i, c);
      RunTracks(ts, events, i);
      LostStays(ts[i], events[i], ts[i + 1], c);
    }
  }

  /** A call is lost exactly when its id was pending at the moment it was made, and then for good. */
  lemma LostExactlyWhenRepeated(ts: seq<Tracked>, events: seq<Event>, m: nat, n: nat)
    requires IsTrackedRun(ts, events) && m < n < |ts| && MadeBy(ts[m].s, events[m]).Makes?
    ensures |ts[m].made| < |ts[n].made|
    ensures |ts[m].made| in ts[n].lost <==> MadeBy(ts[m].s, events[m]).call.id in ts[m].s.pending
  {
    TrackedRunKeepsInv(ts, events, m);
    RunTracks(ts, events, m);
    LostStaysInRun(ts, events, m + 1, n, |ts[m].made|);
  }
}
