/**
 The order in which replies to different calls arrive does not matter to a session.
 */
module ReplyOrder {
  import opened OcppModel
  import opened Session
  import opened BootGate

  // Replies handled one after the other
  function OnFrames(s: State, fs: seq<Frame>): State {
    if fs == [] then s else OnFrame(OnFrames(s, fs[..|fs| - 1]), fs[|fs| - 1])
  }

  function IdsOf(fs: seq<Frame>): set<Id> {
    set f | f in fs :: f.messageId
  }

  // The claim a reply makes if its call is pending
  function Resolution(s: State, f: Frame): Claim
    requires f.messageId in s.pending
  {
    var e := s.pending[f.messageId];
    Claim(f.messageId, e.resolve, Judge(e.kind, f), ByReply)
  }

  // Replies to different calls, none of which is the boot call: callbacks that leave the session alone
  ghost predicate AreReplies(s: State, fs: seq<Frame>) {
    && DistinctIds(fs)
    && (forall f | f in fs :: !f.Call?)
    && (forall f | f in fs :: f.messageId in s.pending ==> s.pending[f.messageId].resolve != BootCallback)
  }

  function One(s: State, f: Frame): seq<Claim> {
    if f.messageId in s.pending then [Resolution(s, f)] else []
  }

  // The claims made, and how many replies find no call
  function Resolutions(s: State, fs: seq<Frame>): seq<Claim> {
    if fs == [] then [] else Resolutions(s, fs[..|fs| - 1]) + One(s, fs[|fs| - 1])
  }

  function Misses(s: State, fs: seq<Frame>): nat {
    if fs == [] then 0 else Misses(s, fs[..|fs| - 1]) + (if fs[|fs| - 1].messageId in s.pending then 0 else 1)
  }

  lemma OneReply(s: State, f: Frame)
    requires !f.Call? && (f.messageId in s.pending ==> s.pending[f.messageId].resolve != BootCallback)
    ensures var t := OnFrame(s, f);
            && t.pending == s.pending - {f.messageId}
            && t.phase == s.phase
            && t.tally.unmatched == s.tally.unmatched + (if f.messageId in s.pending then 0 else 1)
            && t.log.claims == s.log.claims + One(s, f)
  {
    InvokeNewFrame(Reply(s, f), |s.log.claims|);
    if f.messageId in s.pending {
      UnfoldOnce(Reply(s, f), |s.log.claims|);
    } else {
      assert s.pending - {f.messageId} == s.pending;
    }
  }

  // m is the state after the replies before; f is one more.
  lemma OneMoreReply(s: State, before: seq<Frame>, f: Frame, m: State)
    requires m.pending == s.pending - IdsOf(before) && f.messageId !in IdsOf(before) && !f.Call?
    requires f.messageId in s.pending ==> s.pending[f.messageId].resolve != BootCallback
    ensures var t := OnFrame(m, f);
            && t.pending == s.pending - (IdsOf(before) + {f.messageId}) && t.phase == m.phase
            && t.tally.unmatched == m.tally.unmatched + (if f.messageId in s.pending then 0 else 1)
            && t.log.claims == m.log.claims + One(s, f)
  {
    OneReply(m, f);
    assert (s.pending - IdsOf(before)) - {f.messageId} == s.pending - (IdsOf(before) + {f.messageId});
    assert f.messageId in m.pending <==> f.messageId in s.pending;
  }

  lemma {:induction false} ManyReplies(s: State, fs: seq<Frame>)
    requires AreReplies(s, fs)
    ensures var t := OnFrames(s, fs);
            && t.pending == s.pending - IdsOf(fs)
            && t.phase == s.phase
            && t.tally.unmatched == s.tally.unmatched + Misses(s, fs)
            && t.log.claims == s.log.claims + Resolutions(s, fs)
  {
    if fs == [] {
      assert s.pending - IdsOf(fs) == s.pending;
    } else {
      var k := |fs| - 1;
      var before, f := fs[..k], fs[k];
      assert fs == before + [f];
      LastIsNew(before, f);
      ManyReplies(s, before);
      OneMoreReply(s, before, f, OnFrames(s, before));
    }
  }

  // The replies that find their call
  function Hits(s: State, fs: seq<Frame>): seq<Frame> {
    if fs == [] then []
    else Hits(s, fs[..|fs| - 1]) + (if fs[|fs| - 1].messageId in s.pending then [fs[|fs| - 1]] else [])
  }

  // c takes the callback of the call that f replies to, and gives it what that call's kind makes of f.
  predicate Answers(s: State, f: Frame, c: Claim) {
    && f.messageId in s.pending && c.id == f.messageId && c.resolve == s.pending[f.messageId].resolve
    && c.cause == ByReply && IsAnswer(s.pending[f.messageId].kind, f, c.frame)
  }

  lemma ResolutionAnswers(s: State, f: Frame)
    requires !f.Call? && f.messageId in s.pending
    ensures Answers(s, f, Resolution(s, f))
  {
    JudgeIsAnswer(s.pending[f.messageId].kind, f);
  }

  lemma {:induction false} ResolutionsAnswer(s: State, fs: seq<Frame>)
    requires forall f | f in fs :: !f.Call?
    ensures AreAnswers(s, Hits(s, fs), Resolutions(s, fs), 0)
  {
    if fs != [] {
      var k := |fs| - 1;
      ResolutionsAnswer(s, fs[..k]);
      if fs[k].messageId in s.pending {
        ResolutionAnswers(s, fs[k]);
      }
    }
  }

  // From claim n on, the callbacks of these replies, in order
  ghost predicate AreAnswers(s: State, hits: seq<Frame>, claims: seq<Claim>, n: nat) {
    && |claims| == n + |hits|
    && forall i | 0 <= i < |hits| :: Answers(s, hits[i], claims[n + i])
  }

  lemma AnswersAppended(s: State, hits: seq<Frame>, before: seq<Claim>, more: seq<Claim>)
    requires AreAnswers(s, hits, more, 0)
    ensures AreAnswers(s, hits, before + more, |before|)
  {}

  /** Replies to different calls, in any number: the callbacks taken, in order, and what each of them is given. */
  lemma RepliesAreAnswers(s: State, fs: seq<Frame>)
    requires AreReplies(s, fs)
    ensures s.log.claims <= OnFrames(s, fs).log.claims
    ensures AreAnswers(s, Hits(s, fs), OnFrames(s, fs).log.claims, |s.log.claims|)
  {
    ManyReplies(s, fs);
    ResolutionsAnswer(s, fs);
    AnswersAppended(s, Hits(s, fs), s.log.claims, Resolutions(s, fs));
  }

  lemma LastIsNew(before: seq<Frame>, f: Frame)
    requires DistinctIds(before + [f])
    ensures f.messageId !in IdsOf(before) && DistinctIds(before)
    ensures IdsOf(before + [f]) == IdsOf(before) + {f.messageId}
  {
    var fs := before + [f];
    assert forall i | 0 <= i < |before| :: fs[i] == before[i];
    assert fs[|before|] == f;
  }

  lemma {:induction false} ResolutionsAre(s: State, fs: seq<Frame>, c: Claim)
    ensures c in Resolutions(s, fs) <==> exists f :: f in fs && f.messageId in s.pending && c == Resolution(s, f)
  {
    if fs != [] {
      var k := |fs| - 1;
      ResolutionsAre(s, fs[..k], c);
      assert fs == fs[..k] + [fs[k]];
    }
  }

  lemma HitsGrow(ids: set<Id>, id: Id, keys: set<Id>)
    requires id !in ids
    ensures |(ids + {id}) * keys| == |ids * keys| + (if id in keys then 1 else 0)
  {
    assert (ids + {id}) * keys == if id in keys then ids * keys + {id} else ids * keys;
  }

  lemma {:induction false} MissesAre(s: State, fs: seq<Frame>)
    requires DistinctIds(fs)
    ensures Misses(s, fs) + |IdsOf(fs) * s.pending.Keys| == |fs|
  {
    if fs != [] {
      var k := |fs| - 1;
      var before, f := fs[..k], fs[k];
      assert fs == before + [f];
      LastIsNew(before, f);
      MissesAre(s, before);
      HitsGrow(IdsOf(before), f.messageId, s.pending.Keys);
    }
  }

  /**
   Any permutation of replies with distinct ids leaves the same calls pending, gives every resolved call the same
   outcome, and counts the same number of unmatched replies.
   */
  lemma OrderDoesNotMatter(s: State, fs: seq<Frame>, gs: seq<Frame>)
    requires AreReplies(s, fs) && multiset(fs) == multiset(gs)
    ensures var t, u := OnFrames(s, fs), OnFrames(s, gs);
            && t.pending == u.pending && t.phase == u.phase
            && t.tally.unmatched == u.tally.unmatched
            && s.log.claims <= t.log.claims && s.log.claims <= u.log.claims
            && (forall c :: c in t.log.claims[|s.log.claims|..] <==> c in u.log.claims[|s.log.claims|..])
  {
    forall f
      ensures f in fs <==> f in gs
    {
      assert f in multiset(fs) <==> f in multiset(gs);
    }
    PartIsDistinct(fs, gs);
    assert |fs| == |multiset(fs)| == |multiset(gs)| == |gs|;
    ManyReplies(s, fs);
    ManyReplies(s, gs);
    assert IdsOf(fs) == IdsOf(gs);
    MissesAre(s, fs);
    MissesAre(s, gs);
    forall c
      ensures c in Resolutions(s, fs) <==> c in Resolutions(s, gs)
    {
      ResolutionsAre(s, fs, c);
      ResolutionsAre(s, gs, c);
    }
  }
}
