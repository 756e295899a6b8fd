/**
 Draining a quiet ring: polls with nothing else going on, one after the other,
 and how many of them it takes.
 */
module LogDraining {
  import opened Wrappers
  import opened LogRing
  import opened LogShipping
  import opened Sequences

  ghost function Unseen(s: System): seq<Entry> {
    After(Window(s), Level(s))
  }

  ghost function NextBatch(s: System): seq<Entry> {
    First(Unseen(s), EffectiveLimit(s.pullLimit))
  }

  /** What one undisturbed poll with a working database amounts to. */
  ghost function QuietPoll(s: System): (t: System)
    ensures s.phase.Idle? ==> t.phase.Idle?
  {
    var batch := NextBatch(s);
    if batch == [] then s.(cursor := Some(Level(s)))
    else s.(cursor := Some(LastOf(batch)), rows := Insert(s.rows, batch), inserted := s.inserted + batch)
  }

  lemma {:induction false} AfterAfter(es: seq<Entry>, a: nat, b: nat)
    requires a <= b
    ensures After(After(es, a), b) == After(es, b)
  {
    if es != [] {
      AfterAfter(es[1..], a, b);
    }
  }

  /** Above the n-th entry of an increasing sequence lie exactly the later ones. */
  lemma {:induction false} AfterDrops(es: seq<Entry>, n: nat)
    requires Increasing(es) && 0 < n <= |es|
    ensures After(es, es[n - 1].seqNo) == es[n..]
  {
    if n > 1 {
      AfterDrops(es[1..], n - 1);
      assert es[1..][n - 2] == es[n - 1] && es[1..][n - 1..] == es[n..];
    } else {
      AllAbove(es[1..], es[0].seqNo);
    }
  }

  lemma {:induction false} AllAbove(es: seq<Entry>, since: nat)
    requires forall i :: 0 <= i < |es| ==> es[i].seqNo > since
    ensures After(es, since) == es
  {
    if es != [] {
      AllAbove(es[1..], since);
    }
  }

  /** The server has the answer of an undisturbed poll in hand. */
  lemma QuietAnswer(s: System) returns (t: System)
    requires Reachable(s) && s.phase.Idle?
    ensures t == Next(Next(Next(s, Ask(true)), Sample), ReadHead)
    ensures Reachable(t) && Enabled(t, Finish(true)) && !Judge(t.phase.since, t.phase.answer).Regressed?
    ensures var batch := NextBatch(s);
      t == s.(cursor := Some(Level(s)),
              phase := Answered(Level(s), Answer(batch, if batch == [] then Level(s) else LastOf(batch), s.counter)))
  {
    var asked := Next(s, Ask(true));
    ReachableStep(s, Ask(true));
    var sampled := Next(asked, Sample);
    ReachableStep(asked, Sample);
    t := Next(sampled, ReadHead);
    ReachableStep(sampled, ReadHead);
    assert KeyFree(t.rows, t.phase.answer.lines) && !Judge(t.phase.since, t.phase.answer).Regressed? by {
      ReachableInv(t);
      AnswerIsSafe(t);
    }
  }

  /** The five steps of a poll, undisturbed, end exactly in `QuietPoll`. */
  lemma QuietPollIsARun(s: System)
    requires Reachable(s) && s.phase.Idle?
    ensures Reachable(QuietPoll(s))
    ensures var a := Next(Next(Next(s, Ask(true)), Sample), ReadHead);
      Enabled(a, Finish(true)) &&
      var f := Next(a, Finish(true));
      QuietPoll(s) == if f.phase.Stored? then Next(f, Settle) else f
  {
    var a := QuietAnswer(s);
    var f := Next(a, Finish(true));
    ReachableStep(a, Finish(true));
    var batch := NextBatch(s);
    if batch != [] {
      BatchIsAbove(s, batch);
      ReachableStep(f, Settle);
    }
  }

  lemma BatchIsAbove(s: System, batch: seq<Entry>)
    requires batch == NextBatch(s) && batch != []
    ensures LastOf(batch) > Level(s)
  {
    AfterMembers(Window(s), Level(s), batch[|batch| - 1]);
    assert batch[|batch| - 1] in Unseen(s);
  }

  lemma OnePollTakesOneBatch(s: System, t: System)
    requires Reachable(s) && s.phase.Idle? && t == QuietPoll(s)
    ensures Reachable(t) && t.pullLimit == s.pullLimit
    ensures t.inserted == s.inserted + NextBatch(s)
    ensures Unseen(t) == Unseen(s)[|NextBatch(s)|..]
  {
    QuietPollIsARun(s);
    var batch := NextBatch(s);
    if batch != [] {
      WindowFacts(s);
      BatchIsAbove(s, batch);
      UnseenShrinks(Window(s), Level(s), batch);
    } else {
      assert Unseen(s) == [];
    }
  }

  lemma UnseenShrinks(window: seq<Entry>, level: nat, batch: seq<Entry>)
    requires Increasing(window) && batch != [] && batch <= After(window, level) && LastOf(batch) > level
    ensures After(window, LastOf(batch)) == After(window, level)[|batch|..]
  {
    AfterIncreasing(window, level);
    AfterDrops(After(window, level), |batch|);
    AfterAfter(window, level, LastOf(batch));
  }

  ghost function Drain(s: System, polls: nat): System
    requires s.phase.Idle?
    decreases polls
  {
    if polls == 0 then s else Drain(QuietPoll(s), polls - 1)
  }

  lemma FirstSplits(es: seq<Entry>, a: nat, b: nat)
    ensures First(es, a + b) == First(es, a) + First(es[|First(es, a)|..], b)
  {
  }

  /** After k polls of a quiet ring exactly the first k batches are in, in order, once each. */
  lemma {:induction false} DrainTakes(s: System, polls: nat, limit: nat)
    requires Reachable(s) && s.phase.Idle? && limit == EffectiveLimit(s.pullLimit)
    ensures Drain(s, polls).inserted == s.inserted + Batches(Unseen(s), limit, polls)
    decreases polls
  {
    if polls == 0 {
      assert s.inserted + [] == s.inserted;
    } else {
      var t := QuietPoll(s);
      OnePollTakesOneBatch(s, t);
      DrainTakes(t, polls - 1, limit);
      Regroup(s.inserted, NextBatch(s), Batches(Unseen(t), limit, polls - 1));
    }
  }

  /** `polls` consecutive batches of `limit`. */
  ghost function Batches(es: seq<Entry>, limit: nat, polls: nat): seq<Entry> {
    if polls == 0 then []
    else var batch := First(es, limit); batch + Batches(es[|batch|..], limit, polls - 1)
  }

  lemma {:induction false} BatchesAreAPrefix(es: seq<Entry>, limit: nat, polls: nat, total: nat)
    requires total == polls * limit
    ensures Batches(es, limit, polls) == First(es, total)
  {
    if polls > 0 {
      Distribute(polls, limit);
      BatchesAreAPrefix(es[|First(es, limit)|..], limit, polls - 1, total - limit);
      FirstSplits(es, limit, total - limit);
    }
  }

  lemma Distribute(k: nat, n: nat)
    requires k > 0
    ensures k * n == (k - 1) * n + n && k * n >= n
  {
  }

  /** The ring is drained after exactly ceil(n / L) polls, where L is the limit the worker really applies. */
  lemma DrainedExactlyWhen(s: System, polls: nat)
    requires Reachable(s) && s.phase.Idle?
    ensures Drain(s, polls).inserted == s.inserted + Unseen(s)
       <==> polls * EffectiveLimit(s.pullLimit) >= |Unseen(s)|
  {
    hide Drain, Batches, Unseen, Reachable, EffectiveLimit;
    var limit := EffectiveLimit(s.pullLimit);
    var total := polls * limit;
    DrainTakes(s, polls, limit);
    BatchesAreAPrefix(Unseen(s), limit, polls, total);
    if total < |Unseen(s)| {
      assert |s.inserted + First(Unseen(s), total)| < |s.inserted + Unseen(s)|;
    }
  }
}
