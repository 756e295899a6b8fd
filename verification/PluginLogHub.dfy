/**
 The install log of one plugin on one cluster: a bounded buffer that late
 viewers are replayed from, live viewers behind bounded channels, and a reset
 frame when a new session starts on a log that had ended.
 */
module PluginLogHub {
  import opened Wrappers

  const BUFFER: nat := 500
  const CHANNEL: nat := 32

  datatype Entry =
    | Chunk(level: string, ts: int, message: string)
    | End(success: bool, summary: string)
    | Reset

  /** The newest entries that fit. */
  function Newest(s: seq<Entry>): (r: seq<Entry>)
    ensures |r| == if |s| < BUFFER then |s| else BUFFER
  {
    if |s| > BUFFER then s[|s| - BUFFER..] else s
  }

  // ---- A viewer ----

  /** What a viewer shows: a reset clears it, anything else is added. */
  function Show(view: seq<Entry>, e: Entry): seq<Entry> {
    if e.Reset? then [] else view + [e]
  }

  function ShowAll(view: seq<Entry>, frames: seq<Entry>): seq<Entry> {
    if frames == [] then view else Show(ShowAll(view, frames[..|frames| - 1]), frames[|frames| - 1])
  }

  /**
   A subscriber: its view so far, the frames in its channel, the drop counter;
   and, for the statements below only, whether a frame met a full channel after
   the last reset that did not. While the counter is zero that frame was a reset.
   */
  datatype Sub = Sub(view: seq<Entry>, channel: seq<Entry>, dropped: nat, missed: bool)

  /** Sends without waiting. A reset that does not fit is not counted as dropped. */
  function Offer(s: Sub, e: Entry): (r: Sub)
    ensures r.view == s.view
    ensures |s.channel| < CHANNEL ==>
      r.channel == s.channel + [e] && r.dropped == s.dropped && (r.missed ==> s.missed)
    ensures |s.channel| >= CHANNEL ==>
      r.channel == s.channel && r.dropped == s.dropped + if e.Reset? then 0 else 1
  {
    if |s.channel| < CHANNEL then s.(channel := s.channel + [e], missed := s.missed && !e.Reset?)
    else s.(dropped := if e.Reset? then s.dropped else s.dropped + 1, missed := true)
  }

  /** The viewer takes up to n frames. */
  function Take(s: Sub, n: nat): Sub {
    var k := if n < |s.channel| then n else |s.channel|;
    s.(view := ShowAll(s.view, s.channel[..k]), channel := s.channel[k..])
  }

  /** One append as a subscriber sees it; between reset and entry the viewer may take n frames. */
  function Deliver(s: Sub, e: Entry, fromScratch: bool, n: nat): Sub {
    Offer(Take(if fromScratch then Offer(s, Reset) else s, n), e)
  }

  // ---- The session ----

  datatype Hub = Hub(buf: seq<Entry>, closed: bool, subs: map<nat, Sub>)

  /** An entry that is no end, after an end, starts a new session. */
  predicate StartsOver(h: Hub, e: Entry) {
    h.closed && !e.End?
  }

  function Kept(h: Hub, e: Entry): seq<Entry> {
    if StartsOver(h, e) then [] else h.buf
  }

  function Appended(h: Hub, e: Entry, pace: nat -> nat): Hub {
    Hub(Newest(Kept(h, e) + [e]), e.End?,
      map i | i in h.subs :: Deliver(h.subs[i], e, StartsOver(h, e), pace(i)))
  }

  datatype Event =
    | Append(entry: Entry, pace: nat -> nat)
    | Subscribe(id: nat)
    | Unsubscribe(id: nat)
    | Read(id: nat, n: nat)
    | Evict

  predicate Enabled(h: Hub, e: Event) {
    match e
    case Append(entry, _) => !entry.Reset?
    case Subscribe(id) => id !in h.subs
    case Evict => h.subs == map[]
    case _ => true
  }

  function Next(h: Hub, e: Event): Hub {
    match e
    case Append(entry, pace) => Appended(h, entry, pace)
    case Subscribe(id) => h.(subs := h.subs[id := Sub(h.buf, [], 0, false)])
    case Unsubscribe(id) => h.(subs := h.subs - {id})
    case Read(id, n) => if id in h.subs then h.(subs := h.subs[id := Take(h.subs[id], n)]) else h
    case Evict => Hub([], false, map[])
  }

  ghost predicate Run(h: Hub, es: seq<Event>, g: Hub)
    decreases |es|
  {
    if es == [] then h == g else Enabled(h, es[0]) && Run(Next(h, es[0]), es[1..], g)
  }

  // ---- Invariants ----

  /** Chunks, then ends; closed exactly when the last entry is an end. */
  ghost predicate Shaped(buf: seq<Entry>, closed: bool) {
    && |buf| <= BUFFER
    && (forall i :: 0 <= i < |buf| ==> !buf[i].Reset?)
    && (forall i, j :: 0 <= i < j < |buf| && buf[i].End? ==> buf[j].End?)
    && closed == (buf != [] && buf[|buf| - 1].End?)
  }

  /** A subscriber that missed nothing is shown what the buffer holds, once it has read its channel. */
  ghost predicate Faithful(buf: seq<Entry>, s: Sub) {
    |s.channel| <= CHANNEL && (!s.missed ==> Newest(ShowAll(s.view, s.channel)) == buf)
  }

  /** A subscriber that missed only resets shows the buffer behind something older. */
  ghost predicate Behind(buf: seq<Entry>, s: Sub) {
    s.dropped == 0 && s.missed ==>
      var shown := ShowAll(s.view, s.channel);
      |shown| > |buf| && shown[|shown| - |buf|..] == buf
  }

  ghost predicate Inv(h: Hub) {
    Shaped(h.buf, h.closed) && forall i :: i in h.subs ==> Faithful(h.buf, h.subs[i]) && Behind(h.buf, h.subs[i])
  }

  lemma {:induction false} ShowAllSplit(view: seq<Entry>, a: seq<Entry>, b: seq<Entry>)
    ensures ShowAll(ShowAll(view, a), b) == ShowAll(view, a + b)
  {
    if b == [] {
      assert a + b == a;
    } else {
      var n := |b| - 1;
      ShowAllSplit(view, a, b[..n]);
      assert (a + b)[..|a + b| - 1] == a + b[..n];
    }
  }

  lemma ShowAllStep(view: seq<Entry>, a: seq<Entry>, e: Entry)
    ensures ShowAll(view, a + [e]) == Show(ShowAll(view, a), e)
  {
    assert (a + [e])[..|a|] == a;
  }

  lemma NewestAppend(s: seq<Entry>, e: Entry)
    ensures Newest(Newest(s) + [e]) == Newest(s + [e])
  {
  }

  lemma AppendIsShaped(buf: seq<Entry>, closed: bool, e: Entry)
    requires Shaped(buf, closed) && !e.Reset?
    ensures Shaped(Newest((if closed && !e.End? then [] else buf) + [e]), e.End?)
  {
    var all := (if closed && !e.End? then [] else buf) + [e];
    assert forall i :: 0 <= i < |buf| && buf[i].End? ==> buf[|buf| - 1].End?;
    assert forall i, j :: 0 <= i < j < |all| && all[i].End? ==> all[j].End?;
  }

  lemma OfferStaysFaithful(buf: seq<Entry>, s: Sub, e: Entry)
    requires Faithful(buf, s) && !e.Reset?
    ensures Faithful(Newest(buf + [e]), Offer(s, e))
  {
    ShowAllStep(s.view, s.channel, e);
    NewestAppend(ShowAll(s.view, s.channel), e);
  }

  lemma ResetMakesFaithful(s: Sub)
    requires |s.channel| <= CHANNEL
    ensures Faithful([], Offer(s, Reset))
  {
    ShowAllStep(s.view, s.channel, Reset);
  }

  lemma TakeStaysFaithful(buf: seq<Entry>, s: Sub, n: nat)
    requires Faithful(buf, s)
    ensures Faithful(buf, Take(s, n))
  {
    var k := if n < |s.channel| then n else |s.channel|;
    ShowAllSplit(s.view, s.channel[..k], s.channel[k..]);
    assert s.channel[..k] + s.channel[k..] == s.channel;
  }

  lemma DeliverStaysFaithful(h: Hub, s: Sub, e: Entry, n: nat)
    requires Faithful(h.buf, s) && !e.Reset?
    ensures Faithful(Newest(Kept(h, e) + [e]), Deliver(s, e, StartsOver(h, e), n))
  {
    hide Faithful, Newest, Offer, Take;
    if StartsOver(h, e) {
      assert |s.channel| <= CHANNEL by {
        ChannelFits(h.buf, s);
      }
      ResetMakesFaithful(s);
      TakeStaysFaithful([], Offer(s, Reset), n);
      OfferStaysFaithful([], Take(Offer(s, Reset), n), e);
    } else {
      TakeStaysFaithful(h.buf, s, n);
      OfferStaysFaithful(h.buf, Take(s, n), e);
    }
  }

  lemma OfferStaysBehind(buf: seq<Entry>, s: Sub, e: Entry)
    requires Behind(buf, s) && !e.Reset? && |buf| <= BUFFER
    ensures Behind(Newest(buf + [e]), Offer(s, e))
  {
    ShowAllStep(s.view, s.channel, e);
    var shown := ShowAll(s.view, s.channel);
    hide ShowAll, Newest;
    if s.dropped == 0 && s.missed {
      SuffixGrows(shown, buf, e);
    }
  }

  lemma SuffixGrows(shown: seq<Entry>, buf: seq<Entry>, e: Entry)
    requires |buf| <= BUFFER && |shown| > |buf| && shown[|shown| - |buf|..] == buf
    ensures var s, b := shown + [e], Newest(buf + [e]);
      |s| > |b| && s[|s| - |b|..] == b
  {
    var s, b := shown + [e], Newest(buf + [e]);
    assert forall k :: 0 <= k < |buf| ==> buf[k] == shown[|shown| - |buf| + k];
  }

  /** A reset that does not fit leaves the old session in front of the new one. */
  lemma ResetPutsBehind(buf: seq<Entry>, s: Sub)
    requires Faithful(buf, s) && Behind(buf, s) && buf != []
    ensures Behind([], Offer(s, Reset))
  {
  }

  lemma TakeStaysBehind(buf: seq<Entry>, s: Sub, n: nat)
    requires Behind(buf, s)
    ensures Behind(buf, Take(s, n))
  {
    var k := if n < |s.channel| then n else |s.channel|;
    ShowAllSplit(s.view, s.channel[..k], s.channel[k..]);
    assert s.channel[..k] + s.channel[k..] == s.channel;
  }

  lemma DeliverStaysBehind(h: Hub, s: Sub, e: Entry, n: nat)
    requires Shaped(h.buf, h.closed) && Faithful(h.buf, s) && Behind(h.buf, s) && !e.Reset?
    ensures Behind(Newest(Kept(h, e) + [e]), Deliver(s, e, StartsOver(h, e), n))
  {
    hide Behind, Newest, Offer, Take;
    if StartsOver(h, e) {
      ResetPutsBehind(h.buf, s);
      TakeStaysBehind([], Offer(s, Reset), n);
      OfferStaysBehind([], Take(Offer(s, Reset), n), e);
    } else {
      TakeStaysBehind(h.buf, s, n);
      OfferStaysBehind(h.buf, Take(s, n), e);
    }
  }

  lemma ChannelFits(buf: seq<Entry>, s: Sub)
    requires Faithful(buf, s)
    ensures |s.channel| <= CHANNEL
  {
  }

  lemma StepKeepsInv(h: Hub, e: Event)
    requires Inv(h) && Enabled(h, e)
    ensures Inv(Next(h, e))
  {
    hide Faithful, Behind;
    match e
    case Append(entry, pace) =>
      AppendIsShaped(h.buf, h.closed, entry);
      forall i | i in h.subs
        ensures Faithful(Next(h, e).buf, Next(h, e).subs[i]) && Behind(Next(h, e).buf, Next(h, e).subs[i])
      {
        DeliverStaysFaithful(h, h.subs[i], entry, pace(i));
        DeliverStaysBehind(h, h.subs[i], entry, pace(i));
      }
    case Read(id, n) =>
      if id in h.subs {
        TakeStaysFaithful(h.buf, h.subs[id], n);
        TakeStaysBehind(h.buf, h.subs[id], n);
      }
    case Subscribe(_) =>
      NewcomerIsFaithful(h.buf);
    case _ =>
  }

  lemma NewcomerIsFaithful(buf: seq<Entry>)
    requires |buf| <= BUFFER
    ensures Faithful(buf, Sub(buf, [], 0, false)) && Behind(buf, Sub(buf, [], 0, false))
  {
    assert ShowAll(buf, []) == buf;
  }

  /** Viewers come, read and go without any effect on the others, and one that reads on catches up. */
  lemma OthersKeepTheirs(h: Hub, e: Event, i: nat)
    requires Enabled(h, e) && i in h.subs && !e.Append?
    ensures e == Unsubscribe(i) || i in Next(h, e).subs
    ensures i in Next(h, e).subs && (e.Read? ==> e.id != i) ==> Next(h, e).subs[i] == h.subs[i]
    ensures e.Read? && e.id == i && e.n >= |h.subs[i].channel| ==>
      Next(h, e).subs[i] == h.subs[i].(view := ShowAll(h.subs[i].view, h.subs[i].channel), channel := [])
    ensures e.Read? && e.id == i && e.n <= |h.subs[i].channel| ==>
      Next(h, e).subs[i].channel == h.subs[i].channel[e.n..]
  {
    var s := h.subs[i];
    assert s.channel[..|s.channel|] == s.channel;
  }

  lemma {:induction false} RunKeepsInv(h: Hub, es: seq<Event>, g: Hub)
    requires Inv(h) && Run(h, es, g)
    ensures Inv(g)
    decreases |es|
  {
    if es != [] {
      StepKeepsInv(h, es[0]);
      hide Inv, Enabled, Next;
      RunKeepsInv(Next(h, es[0]), es[1..], g);
    }
  }

  /** Over every run the buffer keeps its shape and every subscriber that missed nothing is shown exactly it. */
  lemma ReplayIsFaithful(es: seq<Event>, g: Hub)
    requires Run(Hub([], false, map[]), es, g)
    ensures Shaped(g.buf, g.closed)
    ensures forall i :: i in g.subs && !g.subs[i].missed ==> Newest(ShowAll(g.subs[i].view, g.subs[i].channel)) == g.buf
  {
    RunKeepsInv(Hub([], false, map[]), es, g);
    assert forall i :: i in g.subs ==> Faithful(g.buf, g.subs[i]);
  }

  /** With a drop counter of zero only a missed reset matters, and only until the new session fills the buffer. */
  lemma RightUnlessMissed(es: seq<Event>, g: Hub, i: nat)
    requires Run(Hub([], false, map[]), es, g)
    requires i in g.subs && g.subs[i].dropped == 0
    ensures (Newest(ShowAll(g.subs[i].view, g.subs[i].channel)) == g.buf) == (!g.subs[i].missed || |g.buf| == BUFFER)
  {
    RunKeepsInv(Hub([], false, map[]), es, g);
    assert Faithful(g.buf, g.subs[i]) && Behind(g.buf, g.subs[i]);
  }

  // ---- It does happen ----

  lemma {:induction false} RunAppend(h: Hub, es: seq<Event>, g: Hub, e: Event)
    requires Run(h, es, g) && Enabled(g, e)
    ensures Run(h, es + [e], Next(g, e))
    decreases |es|
  {
    hide Enabled, Next;
    if es == [] {
      assert (es + [e])[1..] == [];
    } else {
      RunAppend(Next(h, es[0]), es[1..], g, e);
      assert (es + [e])[1..] == es[1..] + [e];
    }
  }

  function Idle(i: nat): nat {
    0
  }

  /** A viewer that does not read, in front of a session that is just what it has been sent. */
  function Watching(sent: seq<Entry>, closed: bool): Hub {
    Hub(sent, closed, map[0 := Sub([], sent, 0, false)])
  }

  lemma OneMoreDelivered(sent: seq<Entry>, e: Entry)
    requires |sent| < CHANNEL && !e.Reset?
    ensures Deliver(Sub([], sent, 0, false), e, false, 0) == Sub([], sent + [e], 0, false)
  {
    assert sent[..0] == [] && sent[0..] == sent;
  }

  lemma OneViewer(subs: map<nat, Sub>, s: Sub)
    requires subs.Keys == {0} && subs[0] == s
    ensures subs == map[0 := s]
  {
  }

  lemma SameViewers(h: Hub, e: Entry, pace: nat -> nat)
    ensures Appended(h, e, pace).subs.Keys == h.subs.Keys
    ensures 0 in h.subs ==> Appended(h, e, pace).subs[0] == Deliver(h.subs[0], e, StartsOver(h, e), pace(0))
  {
    hide Deliver, Newest, StartsOver;
  }

  lemma OneMoreSent(sent: seq<Entry>, e: Entry)
    requires |sent| < CHANNEL && !e.Reset?
    ensures Appended(Watching(sent, false), e, Idle) == Watching(sent + [e], e.End?)
  {
    hide Deliver, Newest, ShowAll;
    var h := Watching(sent, false);
    var g := Appended(h, e, Idle);
    assert g.closed == e.End? && g.buf == Newest(sent + [e]);
    SameViewers(h, e, Idle);
    OneMoreDelivered(sent, e);
    hide Appended;
    OneViewer(g.subs, Sub([], sent + [e], 0, false));
    NothingTrimmed(sent + [e]);
  }

  lemma NothingTrimmed(s: seq<Entry>)
    requires |s| <= BUFFER
    ensures Newest(s) == s
  {
  }

  /** Such a state is reached by subscribing and being sent that many lines. */
  lemma {:induction false} ManySent(sent: seq<Entry>) returns (es: seq<Event>)
    requires |sent| < CHANNEL && forall i :: 0 <= i < |sent| ==> sent[i].Chunk?
    ensures Run(Hub([], false, map[]), es, Watching(sent, false))
  {
    if sent == [] {
      var start := Hub([], false, map[]);
      assert Next(start, Subscribe(0)) == Watching([], false);
      es := [Subscribe(0)];
      assert es[1..] == [];
      assert Run(Watching([], false), [], Watching([], false));
    } else {
      var n := |sent| - 1;
      var before := ManySent(sent[..n]);
      OneMoreSent(sent[..n], sent[n]);
      assert sent[..n] + [sent[n]] == sent;
      hide Next, Appended;
      NextAppends(Watching(sent[..n], false), sent[n]);
      RunAppend(Hub([], false, map[]), before, Watching(sent[..n], false), Append(sent[n], Idle));
      es := before + [Append(sent[n], Idle)];
    }
  }

  lemma NextAppends(h: Hub, e: Entry)
    ensures Next(h, Append(e, Idle)) == Appended(h, e, Idle) && (!e.Reset? ==> Enabled(h, Append(e, Idle)))
  {
  }

  /**
   Subscribe, 31 lines, an end, and one line of the next session, with one frame
   read between its reset and itself: the counter is zero and the view is wrong.
   */
  lemma ResetLostUncounted(sent: seq<Entry>, end: Entry, e: Entry) returns (es: seq<Event>, g: Hub)
    requires |sent| == CHANNEL - 1 && (forall i :: 0 <= i < |sent| ==> sent[i].Chunk?) && end.End? && e.Chunk?
    ensures Run(Hub([], false, map[]), es, g) && 0 in g.subs && g.subs[0].dropped == 0
    ensures Newest(ShowAll(g.subs[0].view, g.subs[0].channel)) != g.buf
  {
    var start := Hub([], false, map[]);
    es := ManySent(sent);
    OneMoreSent(sent, end);
    NextAppends(Watching(sent, false), end);
    RunAppend(start, es, Watching(sent, false), Append(end, Idle));
    es := es + [Append(end, Idle)];
    var full := Watching(sent + [end], true);
    var pace: nat -> nat := _ => 1;
    g := Next(full, Append(e, pace));
    RunAppend(start, es, full, Append(e, pace));
    es := es + [Append(e, pace)];
    LateResetIsMissed(full.subs[0], e);
    hide Run, Newest, ShowAll;
    RightUnlessMissed(es, g, 0);
  }

  lemma LateResetIsMissed(s: Sub, e: Entry)
    requires |s.channel| == CHANNEL && s.dropped == 0 && !e.Reset?
    ensures Deliver(s, e, true, 1).dropped == 0 && Deliver(s, e, true, 1).missed
  {
  }

  // ---- The session as an object ----

  lemma AllDelivered(h: Hub, e: Entry, pace: nat -> nat, a: map<nat, Sub>, b: map<nat, Sub>, c: map<nat, Sub>)
    requires a == if StartsOver(h, e) then map i | i in h.subs :: Offer(h.subs[i], Reset) else h.subs
    requires b == map i | i in a :: Take(a[i], pace(i))
    requires c == map i | i in b :: Offer(b[i], e)
    ensures c == Appended(h, e, pace).subs
  {
    hide Offer, Take, Newest, StartsOver;
    assert a.Keys == h.subs.Keys && b.Keys == a.Keys && c.Keys == b.Keys;
    forall i | i in c
      ensures c[i] == Deliver(h.subs[i], e, StartsOver(h, e), pace(i))
    {
      assert a[i] == if StartsOver(h, e) then Offer(h.subs[i], Reset) else h.subs[i];
    }
  }

  lemma Trimmed(s: seq<Entry>, t: seq<Entry>)
    requires t == if |s| > BUFFER then s[|s| - BUFFER..] else s
    ensures t == Newest(s)
  {
  }

  class Session {
    var buf: seq<Entry>
    var closed: bool
    var subs: map<nat, Sub>

    ghost function View(): Hub
      reads this
    {
      Hub(buf, closed, subs)
    }

    constructor ()
      ensures View() == Hub([], false, map[])
    {
      buf, closed, subs := [], false, map[];
    }

    method Append(e: Entry, pace: nat -> nat)
      requires !e.Reset?
      modifies this
      ensures View() == Appended(old(View()), e, pace)
    {
      hide Offer, Take, Newest;
      ghost var h := View();
      if e.End? {
        closed := true;
      } else if closed {
        closed := false;
        buf := [];
        Send(Reset);
      }
      ghost var offered := subs;
      Wait(pace);
      ghost var waited := subs;
      buf := buf + [e];
      ghost var whole := buf;
      if |buf| > BUFFER {
        buf := buf[|buf| - BUFFER..];
      }
      Trimmed(whole, buf);
      Send(e);
      AllDelivered(h, e, pace, offered, waited, subs);
    }

    /** Offers an entry to each subscriber in turn. */
    method Send(e: Entry)
      modifies this`subs
      ensures subs == map i | i in old(subs) :: Offer(old(subs)[i], e)
    {
      var left := subs.Keys;
      while left != {}
        invariant left <= subs.Keys == old(subs).Keys
        invariant forall i :: i in subs ==> subs[i] == if i in left then old(subs)[i] else Offer(old(subs)[i], e)
        decreases |left|
      {
        var i :| i in left;
        left := left - {i};
        subs := subs[i := Offer(subs[i], e)];
      }
    }

    /** The viewers read on meanwhile. */
    method Wait(pace: nat -> nat)
      modifies this`subs
      ensures subs == map i | i in old(subs) :: Take(old(subs)[i], pace(i))
    {
      var left := subs.Keys;
      while left != {}
        invariant left <= subs.Keys == old(subs).Keys
        invariant forall i :: i in subs ==> subs[i] == if i in left then old(subs)[i] else Take(old(subs)[i], pace(i))
        decreases |left|
      {
        var i :| i in left;
        left := left - {i};
        subs := subs[i := Take(subs[i], pace(i))];
      }
    }

    method Subscribe(id: nat) returns (snapshot: seq<Entry>)
      requires id !in subs
      modifies this`subs
      ensures snapshot == buf
      ensures View() == Next(old(View()), Event.Subscribe(id)) && subs[id].view == snapshot
    {
      snapshot := buf;
      subs := subs[id := Sub(snapshot, [], 0, false)];
    }

    method Unsubscribe(id: nat)
      modifies this`subs
      ensures View() == Next(old(View()), Event.Unsubscribe(id))
    {
      subs := subs - {id};
    }
  }
}
