/**
 What the viewers of an install log are shown, told from the lengths of their
 channels along the run, and what the buffer holds, told from the entries that
 were appended.
 */
module PluginLogViews {
  import opened Wrappers
  import opened PluginLogHub
  import opened Sequences

  const NEW := Hub([], false, map[])

  // ---- With room ----

  /** Free slots that an append takes. */
  function Frames(h: Hub, e: Entry): nat {
    if StartsOver(h, e) then 2 else 1
  }

  /** An append that finds room drops nothing, and a new session clears the view, whatever the viewer reads in between. */
  lemma RoomyAppend(h: Hub, s: Sub, e: Entry, n: nat)
    requires !e.Reset? && |s.channel| + Frames(h, e) <= CHANNEL
    ensures var r := Deliver(s, e, StartsOver(h, e), n);
      && r.dropped == s.dropped && (r.missed ==> s.missed)
      && ShowAll(r.view, r.channel) == (if StartsOver(h, e) then [] else ShowAll(s.view, s.channel)) + [e]
  {
    var s1 := if StartsOver(h, e) then Offer(s, Reset) else s;
    if StartsOver(h, e) {
      ShowAllStep(s.view, s.channel, Reset);
    }
    TakeShowsTheSame(s1, n);
    var s2 := Take(s1, n);
    ShowAllStep(s2.view, s2.channel, e);
    hide ShowAll, Take;
  }

  lemma TakeShowsTheSame(s: Sub, n: nat)
    ensures var t := Take(s, n);
      && ShowAll(t.view, t.channel) == ShowAll(s.view, s.channel)
      && |t.channel| <= |s.channel| && t.dropped == s.dropped && t.missed == s.missed
  {
    var k := if n < |s.channel| then n else |s.channel|;
    ShowAllSplit(s.view, s.channel[..k], s.channel[k..]);
    assert s.channel[..k] + s.channel[k..] == s.channel;
  }

  /** Whenever something is appended while this viewer is there, its channel has room for it. */
  ghost predicate Roomy(h: Hub, es: seq<Event>, i: nat)
    decreases |es|
  {
    es != [] ==>
      && (es[0].Append? && i in h.subs ==> |h.subs[i].channel| + Frames(h, es[0].entry) <= CHANNEL)
      && Roomy(Next(h, es[0]), es[1..], i)
  }

  lemma RoomyStep(h: Hub, e: Event, i: nat)
    requires Enabled(h, e) && (i in h.subs ==> h.subs[i].dropped == 0 && !h.subs[i].missed)
    requires e.Append? && i in h.subs ==> |h.subs[i].channel| + Frames(h, e.entry) <= CHANNEL
    ensures var g := Next(h, e); i in g.subs ==> g.subs[i].dropped == 0 && !g.subs[i].missed
  {
    if e.Append? && i in h.subs {
      RoomyAppend(h, h.subs[i], e.entry, e.pace(i));
    }
    hide Offer, ShowAll, Newest;
  }

  lemma {:induction false} RoomyMissesNothing(h: Hub, es: seq<Event>, g: Hub, i: nat)
    requires Run(h, es, g) && Roomy(h, es, i)
    requires i in h.subs ==> h.subs[i].dropped == 0 && !h.subs[i].missed
    ensures i in g.subs ==> g.subs[i].dropped == 0 && !g.subs[i].missed
    decreases |es|
  {
    if es != [] {
      RoomyStep(h, es[0], i);
      hide Next, Enabled;
      RoomyMissesNothing(Next(h, es[0]), es[1..], g, i);
    }
  }

  /** A viewer whose channel always had room has dropped nothing and is shown exactly the buffer. */
  lemma RoomyViewIsRight(es: seq<Event>, g: Hub, i: nat)
    requires Run(NEW, es, g) && Roomy(NEW, es, i) && i in g.subs
    ensures g.subs[i].dropped == 0 && Newest(ShowAll(g.subs[i].view, g.subs[i].channel)) == g.buf
  {
    RoomyMissesNothing(NEW, es, g, i);
    ReplayIsFaithful(es, g);
  }

  // ---- Without ----

  /** Whether the last session start since the viewer came found its channel full. */
  ghost predicate ResetLost(h: Hub, es: seq<Event>, i: nat, before: bool)
    decreases |es|
  {
    if es == [] then before
    else ResetLost(Next(h, es[0]), es[1..], i, LostNow(h, es[0], i, before))
  }

  predicate LostNow(h: Hub, e: Event, i: nat, before: bool) {
    match e
    case Append(entry, _) => if i in h.subs && StartsOver(h, entry) then |h.subs[i].channel| >= CHANNEL else before
    case Subscribe(id) => if id == i then false else before
    case _ => before
  }

  lemma LostStep(h: Hub, e: Event, i: nat, before: bool)
    requires Enabled(h, e) && (i in h.subs && h.subs[i].dropped == 0 ==> h.subs[i].missed == before)
    ensures var g := Next(h, e);
      i in g.subs && g.subs[i].dropped == 0 ==> g.subs[i].missed == LostNow(h, e, i, before)
  {
    hide ShowAll, Newest;
  }

  lemma {:induction false} LostIsMissed(h: Hub, es: seq<Event>, g: Hub, i: nat, before: bool)
    requires Run(h, es, g) && (i in h.subs && h.subs[i].dropped == 0 ==> h.subs[i].missed == before)
    ensures i in g.subs && g.subs[i].dropped == 0 ==> g.subs[i].missed == ResetLost(h, es, i, before)
    decreases |es|
  {
    if es != [] {
      LostStep(h, es[0], i, before);
      hide Next, Enabled, LostNow;
      LostIsMissed(Next(h, es[0]), es[1..], g, i, LostNow(h, es[0], i, before));
    }
  }

  /**
   A viewer whose drop counter is zero is shown the buffer if and only if the last
   session to start since it came did not find its channel full, or has filled the
   buffer meanwhile.
   */
  lemma ViewIsRightIff(es: seq<Event>, g: Hub, i: nat)
    requires Run(NEW, es, g) && i in g.subs && g.subs[i].dropped == 0
    ensures (Newest(ShowAll(g.subs[i].view, g.subs[i].channel)) == g.buf)
      == (!ResetLost(NEW, es, i, false) || |g.buf| == BUFFER)
  {
    LostIsMissed(NEW, es, g, i, false);
    RightUnlessMissed(es, g, i);
  }

  // ---- The buffer ----

  /** Everything appended since the last eviction. */
  function Entries(es: seq<Event>): seq<Entry> {
    if es == [] then []
    else
      match es[|es| - 1]
      case Append(entry, _) => Entries(es[..|es| - 1]) + [entry]
      case Evict => []
      case _ => Entries(es[..|es| - 1])
  }

  /** A session starts with an entry that is no end, right after an end. */
  predicate Boundary(all: seq<Entry>, k: nat) {
    0 < k < |all| && all[k - 1].End? && !all[k].End?
  }

  /** The present session begins at k. */
  ghost predicate SessionFrom(all: seq<Entry>, k: nat) {
    && (k == 0 || Boundary(all, k))
    && forall j :: k < j < |all| ==> !Boundary(all, j)
  }

  ghost predicate Holds(h: Hub, all: seq<Entry>, k: nat) {
    && k <= |all| && SessionFrom(all, k) && h.buf == Newest(all[k..])
    && h.closed == (all != [] && all[|all| - 1].End?)
  }

  lemma SessionGrows(all: seq<Entry>, k: nat, e: Entry)
    requires k <= |all| && SessionFrom(all, k)
    ensures SessionFrom(all + [e], if Boundary(all + [e], |all|) then |all| else k)
  {
    var more := all + [e];
    forall j | 0 < j < |all|
      ensures Boundary(more, j) == Boundary(all, j)
    {
      assert more[j - 1] == all[j - 1] && more[j] == all[j];
    }
    hide Boundary;
  }

  lemma AppendHolds(h: Hub, all: seq<Entry>, k: nat, e: Entry, pace: nat -> nat)
    requires Holds(h, all, k)
    ensures Holds(Appended(h, e, pace), all + [e], if StartsOver(h, e) then |all| else k)
  {
    hide Deliver, Newest, SessionFrom;
    var more := all + [e];
    SessionGrows(all, k, e);
    assert Boundary(more, |all|) == StartsOver(h, e);
    if StartsOver(h, e) {
      assert more[|all|..] == [e] == Kept(h, e) + [e];
    } else {
      assert more[k..] == all[k..] + [e];
      NewestAppend(all[k..], e);
    }
  }

  lemma {:induction false} HoldsThroughout(es: seq<Event>, g: Hub) returns (k: nat)
    requires Run(NEW, es, g)
    ensures Holds(g, Entries(es), k)
  {
    if es == [] {
      k := 0;
    } else {
      var n := |es| - 1;
      var h := LastStep(NEW, es, g);
      k := HoldsThroughout(es[..n], h);
      match es[n]
      case Append(entry, pace) =>
        AppendHolds(h, Entries(es[..n]), k, entry, pace);
        k := if StartsOver(h, entry) then |Entries(es[..n])| else k;
      case Evict => k := 0;
      case _ =>
    }
  }

  lemma {:induction false} LastStep(h: Hub, es: seq<Event>, g: Hub) returns (u: Hub)
    requires Run(h, es, g) && es != []
    ensures Run(h, es[..|es| - 1], u) && Enabled(u, es[|es| - 1]) && g == Next(u, es[|es| - 1])
    decreases |es|
  {
    hide Next, Enabled;
    if |es| == 1 {
      u := h;
    } else {
      u := LastStep(Next(h, es[0]), es[1..], g);
      assert es[..|es| - 1][1..] == es[1..][..|es| - 2];
    }
  }

  /** The buffer is the newest entries of the present session, as the entries alone tell where that began. */
  lemma BufferIsTheSession(es: seq<Event>, g: Hub)
    requires Run(NEW, es, g)
    ensures exists k :: 0 <= k <= |Entries(es)| && SessionFrom(Entries(es), k) && g.buf == Newest(Entries(es)[k..])
  {
    var k := HoldsThroughout(es, g);
  }
}
