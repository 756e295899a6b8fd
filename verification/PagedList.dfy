/**
 The list hook: one accumulator filled page by page from a server that answers
 in any order, or not at all, while the user refreshes, asks for more and
 switches to another list. Every fetch carries a generation, and only the
 latest generation may touch the state.
 */
module PagedList {
  import opened Wrappers

  /** The server may say how many items come after the page. */
  datatype Page<T> = Page(items: seq<T>, next: Option<string>, remaining: Option<nat>)

  /** The server: which page a token stands for, for each setting of the hook's dependencies. */
  type Server<T> = (nat, Option<string>) -> Page<T>

  /** An empty token counts as none. */
  function NextToken<T>(p: Page<T>): Option<string> {
    if p.next == Some("") then None else p.next
  }

  // ---- The chain of pages ----

  /** The token that asks for page i, if there is such a page. */
  function TokenAt<T>(server: Server<T>, deps: nat, i: nat): Option<Option<string>> {
    if i == 0 then Some(None)
    else
      match TokenAt(server, deps, i - 1)
      case None => None
      case Some(token) =>
        match NextToken(server(deps, token))
        case None => None
        case Some(t) => Some(Some(t))
  }

  /** The first n pages, one after the other. */
  function Pages<T>(server: Server<T>, deps: nat, n: nat): seq<T> {
    if n == 0 then []
    else
      match TokenAt(server, deps, n - 1)
      case None => []
      case Some(token) => Pages(server, deps, n - 1) + server(deps, token).items
  }

  // ---- The total ----

  /** The total after one more page; a count already made is added to, whatever it stood for. */
  function NewTotal<T>(page: Page<T>, append: bool, total: Option<nat>): Option<nat> {
    var base := if append && total.Some? then total.value else 0;
    if page.remaining.Some? then Some(base + |page.items| + page.remaining.value)
    else if NextToken(page).None? then Some(base + |page.items|)
    else if append then total
    else None
  }

  /** The total that loading the first n pages one after the other leads to. */
  function TotalAt<T>(server: Server<T>, deps: nat, n: nat): Option<nat> {
    if n == 0 then None
    else
      match TokenAt(server, deps, n - 1)
      case None => None
      case Some(token) => NewTotal(server(deps, token), n > 1, TotalAt(server, deps, n - 1))
  }

  /** The page adds something to the total: it reports what remains, or it is the last. */
  ghost predicate CountedAt<T>(server: Server<T>, deps: nat, i: nat) {
    TokenAt(server, deps, i).Some? &&
    var page := server(deps, TokenAt(server, deps, i).value);
    page.remaining.Some? || NextToken(page).None?
  }

  /** The list has this many items, and every count that is reported is right. */
  ghost predicate Honest<T>(server: Server<T>, deps: nat, all: nat) {
    forall i: nat :: TokenAt(server, deps, i).Some? ==>
      var page := server(deps, TokenAt(server, deps, i).value);
      var seen := |Pages(server, deps, i + 1)|;
      && seen <= all
      && (page.remaining.Some? ==> seen + page.remaining.value == all)
      && (NextToken(page).None? ==> seen == all)
  }

  /** What the counted pages after page m add: each all that was not there before it, although m has counted that already. */
  ghost function Recounted<T>(server: Server<T>, deps: nat, m: nat, n: nat, all: nat): int {
    if n <= m + 1 then 0
    else
      Recounted(server, deps, m, n - 1, all)
      + if CountedAt(server, deps, n - 1) then all - |Pages(server, deps, n - 1)| else 0
  }

  ghost predicate FirstCounted<T>(server: Server<T>, deps: nat, m: nat) {
    CountedAt(server, deps, m) && forall k: nat :: k < m ==> !CountedAt(server, deps, k)
  }

  lemma {:induction false} NoneCounted<T>(server: Server<T>, deps: nat, n: nat)
    requires forall k: nat :: k < n ==> !CountedAt(server, deps, k)
    ensures TotalAt(server, deps, n).None?
  {
    if n > 0 {
      assert !CountedAt(server, deps, n - 1);
      NoneCounted(server, deps, n - 1);
    }
  }

  /** The first counted page misses what is before it, and the later ones count again what it has counted. */
  lemma {:induction false} TotalMissesAndRecounts<T>(server: Server<T>, deps: nat, m: nat, n: nat, all: nat)
    requires Honest(server, deps, all) && FirstCounted(server, deps, m)
    requires m < n && TokenAt(server, deps, n - 1).Some?
    ensures TotalAt(server, deps, n)
      == Some(all - |Pages(server, deps, m)| + Recounted(server, deps, m, n, all))
    decreases n
  {
    var page := server(deps, TokenAt(server, deps, n - 1).value);
    assert |Pages(server, deps, n - 1 + 1)| == |Pages(server, deps, n - 1)| + |page.items|;
    if n > m + 1 {
      TotalMissesAndRecounts(server, deps, m, n - 1, all);
    } else {
      NoneCounted(server, deps, m);
    }
  }

  lemma {:induction false} NothingRecountedIff<T>(server: Server<T>, deps: nat, m: nat, n: nat, all: nat)
    requires Honest(server, deps, all) && m < n && TokenAt(server, deps, n - 1).Some?
    ensures Recounted(server, deps, m, n, all) >= 0
    ensures (Recounted(server, deps, m, n, all) == 0)
      == forall k :: m < k < n && CountedAt(server, deps, k) ==> |Pages(server, deps, k)| == all
    decreases n
  {
    if n > m + 1 {
      assert |Pages(server, deps, n - 2 + 1)| <= all;
      NothingRecountedIff(server, deps, m, n - 1, all);
    }
  }

  lemma {:induction false} SomeCounted<T>(server: Server<T>, deps: nat, n: nat) returns (m: nat)
    requires TotalAt(server, deps, n).Some?
    ensures m < n && FirstCounted(server, deps, m)
  {
    if c: nat :| c < n && CountedAt(server, deps, c) {
      m := Earliest(server, deps, c);
    } else {
      NoneCounted(server, deps, n);
      assert false;
    }
  }

  lemma {:induction false} Earliest<T>(server: Server<T>, deps: nat, c: nat) returns (m: nat)
    requires CountedAt(server, deps, c)
    ensures m <= c && FirstCounted(server, deps, m)
  {
    if k: nat :| k < c && CountedAt(server, deps, k) {
      m := Earliest(server, deps, k);
    } else {
      m := c;
    }
  }

  // ---- The hook ----

  datatype Fetch = Fetch(token: Option<string>, deps: nat, append: bool)

  datatype Hook<T> = Hook(
    ready: bool, deps: nat,
    gen: nat, items: seq<T>, continueRef: Option<string>, hasMore: bool, loading: bool,
    total: Option<nat>, error: bool, inflight: map<nat, Fetch>,
    shown: nat)     // how many pages the items are, for the statements below only

  datatype Event =
    | Refresh
    | LoadMore
    | Change(ready: bool, deps: nat)     // the effect that runs when ready or the dependencies change
    | Succeed(gen: nat)
    | Fail(gen: nat)
    | Unmount

  function Start<T>(): Hook<T> {
    Hook(false, 0, 0, [], None, false, false, None, false, map[], 0)
  }

  predicate Enabled<T>(h: Hook<T>, e: Event) {
    match e
    case Succeed(g) => g in h.inflight
    case Fail(g) => g in h.inflight
    case _ => true
  }

  /** Sends a request under a new generation. */
  function Asking<T>(h: Hook<T>, token: Option<string>, append: bool): Hook<T> {
    var g := h.gen + 1;
    h.(gen := g, loading := true, error := false, inflight := h.inflight[g := Fetch(token, h.deps, append)])
  }

  function Received<T>(h: Hook<T>, f: Fetch, page: Page<T>): Hook<T> {
    var next := NextToken(page);
    h.(items := if f.append then h.items + page.items else page.items,
       continueRef := next, hasMore := next.Some?, loading := false, total := NewTotal(page, f.append, h.total),
       shown := if f.append then h.shown + 1 else 1)
  }

  function Next<T>(server: Server<T>, h: Hook<T>, e: Event): Hook<T>
    requires Enabled(h, e)
  {
    match e
    case Refresh =>
      if !h.ready then h else Asking(h.(continueRef := None, hasMore := false, total := None), None, false)
    case LoadMore =>
      if !h.ready || h.continueRef.None? then h else Asking(h, h.continueRef, true)
    case Change(ready, deps) =>
      var h1 := h.(ready := ready, deps := deps, items := [], continueRef := None, hasMore := false, total := None, shown := 0);
      if ready then Asking(h1, None, false) else h1.(gen := h.gen + 1, error := false)
    case Succeed(g) =>
      var h1 := h.(inflight := h.inflight - {g});
      if g != h.gen then h1 else Received(h1, h.inflight[g], server(h.inflight[g].deps, h.inflight[g].token))
    case Fail(g) =>
      var h1 := h.(inflight := h.inflight - {g});
      if g != h.gen then h1 else h1.(loading := false, error := true)
    case Unmount => h.(gen := h.gen + 1)
  }

  ghost predicate Run<T>(server: Server<T>, h: Hook<T>, es: seq<Event>, k: Hook<T>)
    decreases |es|
  {
    if es == [] then h == k else Enabled(h, es[0]) && Run(server, Next(server, h, es[0]), es[1..], k)
  }

  // ---- What every run keeps ----

  ghost predicate Inv<T>(server: Server<T>, h: Hook<T>) {
    && (h.shown == 0 || TokenAt(server, h.deps, h.shown - 1).Some?)
    && h.items == Pages(server, h.deps, h.shown)
    && (h.continueRef.Some? ==> TokenAt(server, h.deps, h.shown) == Some(h.continueRef))
    && h.hasMore == h.continueRef.Some?
    && (h.total.Some? || h.continueRef.Some? ==> h.total == TotalAt(server, h.deps, h.shown))
    && (h.error ==> !h.loading && h.gen !in h.inflight)
    && (forall g :: g in h.inflight ==> g <= h.gen)
    && (h.gen in h.inflight ==>
        var f := h.inflight[h.gen];
        f.deps == h.deps && if f.append then f.token == h.continueRef && f.token.Some? else f.token.None?)
  }

  lemma ResponseKeepsInv<T>(server: Server<T>, h: Hook<T>, g: nat)
    requires Inv(server, h) && Enabled(h, Succeed(g))
    ensures Inv(server, Next(server, h, Succeed(g)))
  {
    if g == h.gen {
      var f := h.inflight[g];
      var k := Next(server, h, Succeed(g));
      assert k.shown > 0 && TokenAt(server, h.deps, k.shown - 1) == Some(f.token);
      assert !f.append ==> Pages(server, h.deps, 0) + server(h.deps, f.token).items == server(h.deps, f.token).items;
    }
  }

  lemma RequestKeepsInv<T>(server: Server<T>, h: Hook<T>, e: Event)
    requires Inv(server, h) && (e.Refresh? || e.LoadMore?)
    ensures Inv(server, Next(server, h, e))
  {
    hide TokenAt, Pages, TotalAt;
  }

  lemma ChangeKeepsInv<T>(server: Server<T>, h: Hook<T>, e: Event)
    requires Inv(server, h) && e.Change?
    ensures Inv(server, Next(server, h, e))
  {
  }

  lemma FailureKeepsInv<T>(server: Server<T>, h: Hook<T>, e: Event)
    requires Inv(server, h) && Enabled(h, e) && (e.Fail? || e.Unmount?)
    ensures Inv(server, Next(server, h, e))
  {
    hide TokenAt, Pages, TotalAt;
  }

  lemma StepKeepsInv<T>(server: Server<T>, h: Hook<T>, e: Event)
    requires Inv(server, h) && Enabled(h, e)
    ensures Inv(server, Next(server, h, e))
  {
    hide Inv, Next;
    match e
    case Succeed(g) => ResponseKeepsInv(server, h, g);
    case Change(_, _) => ChangeKeepsInv(server, h, e);
    case Refresh => RequestKeepsInv(server, h, e);
    case LoadMore => RequestKeepsInv(server, h, e);
    case _ => FailureKeepsInv(server, h, e);
  }

  lemma {:induction false} RunKeepsInv<T>(server: Server<T>, h: Hook<T>, es: seq<Event>, k: Hook<T>)
    requires Inv(server, h) && Run(server, h, es, k)
    ensures Inv(server, k)
    decreases |es|
  {
    if es != [] {
      StepKeepsInv(server, h, es[0]);
      hide Inv, Enabled, Next;
      RunKeepsInv(server, Next(server, h, es[0]), es[1..], k);
    }
  }

  /**
   Whatever the order of responses, the items are the first pages of the present
   list, each once and none left out, and the token kept is the next page's.
   */
  lemma ItemsAreAChain<T>(server: Server<T>, es: seq<Event>, h: Hook<T>)
    requires Run(server, Start(), es, h)
    ensures exists n: nat :: Shows(server, h, n)
  {
    assert Inv(server, Start());
    RunKeepsInv(server, Start(), es, h);
    assert Shows(server, h, h.shown);
  }

  ghost predicate Shows<T>(server: Server<T>, h: Hook<T>, n: nat) {
    && (n == 0 || TokenAt(server, h.deps, n - 1).Some?)
    && h.items == Pages(server, h.deps, n)
    && (h.continueRef.Some? ==> TokenAt(server, h.deps, n) == Some(h.continueRef))
  }

  /** There is more exactly if the page brought a token, and that is what the next request asks with; "" is none. */
  lemma MoreIff<T>(server: Server<T>, h: Hook<T>)
    requires Enabled(h, Succeed(h.gen)) && h.ready
    ensures var f := h.inflight[h.gen];
      var page := server(f.deps, f.token);
      var k := Next(server, h, Succeed(h.gen));
      var more := Next(server, k, LoadMore);
      k.hasMore == (page.next.Some? && page.next != Some("")) &&
      if k.hasMore then more.gen == h.gen + 1 && more.inflight == k.inflight[more.gen := Fetch(page.next, h.deps, true)] else more == k
  {
  }

  /** A first page asked for anew: nothing is known of a next page or a total, and there is nothing more to ask for until it is there. */
  lemma RefreshStartsOver<T>(server: Server<T>, h: Hook<T>)
    requires h.ready
    ensures var k := Next(server, h, Refresh);
      && k.loading && k.continueRef.None? && !k.hasMore && k.total.None? && k.items == h.items
      && k.gen in k.inflight && k.inflight[k.gen] == Fetch(None, h.deps, false)
      && Next(server, k, LoadMore) == k
  {
  }

  /** A step that starts a request or begins a new list. */
  predicate StartsAnew<T>(h: Hook<T>, e: Event) {
    || e.Change?
    || (e.Refresh? && h.ready)
    || (e.LoadMore? && h.ready && h.continueRef.Some?)
  }

  /** The failure of the latest request sets the error, nothing else does, and it stays until something is started. */
  lemma ErrorIff<T>(server: Server<T>, h: Hook<T>, e: Event)
    requires Enabled(h, e)
    ensures Next(server, h, e).error == (e == Fail(h.gen) || (h.error && !StartsAnew(h, e)))
  {
  }

  /** An error is shown only when no request is out that could still succeed. */
  lemma ErrorMeansNoRequest<T>(server: Server<T>, es: seq<Event>, h: Hook<T>)
    requires Run(server, Start(), es, h)
    ensures h.error ==> !h.loading && h.gen !in h.inflight
  {
    assert Inv(server, Start());
    RunKeepsInv(server, Start(), es, h);
  }

  /**
   With honest counts, let m be the first page that is counted. The total is the
   size of the list if and only if the later counted pages have left just as many
   items as stand before page m. If m is the last page shown, this means that
   nothing stands before it; if m is the first of all, that no later counted page
   has anything left.
   */
  lemma TotalIsRightIff<T>(server: Server<T>, es: seq<Event>, h: Hook<T>, all: nat) returns (m: nat)
    requires Run(server, Start(), es, h) && h.total.Some? && Honest(server, h.deps, all)
    ensures m < h.shown && FirstCounted(server, h.deps, m) && h.items == Pages(server, h.deps, h.shown)
    ensures (h.total.value == all) == (Recounted(server, h.deps, m, h.shown, all) == |Pages(server, h.deps, m)|)
    ensures m + 1 == h.shown ==> (h.total.value == all) == (Pages(server, h.deps, m) == [])
    ensures Pages(server, h.deps, m) == [] ==>
      (h.total.value == all)
        == forall k :: m < k < h.shown && CountedAt(server, h.deps, k) ==> |Pages(server, h.deps, k)| == all
  {
    assert Inv(server, Start());
    RunKeepsInv(server, Start(), es, h);
    m := SomeCounted(server, h.deps, h.shown);
    TotalMissesAndRecounts(server, h.deps, m, h.shown, all);
    NothingRecountedIff(server, h.deps, m, h.shown, all);
  }

  lemma RunStep<T>(server: Server<T>, h: Hook<T>, e: Event, es: seq<Event>, k: Hook<T>)
    requires Enabled(h, e) && Run(server, Next(server, h, e), es, k)
    ensures Run(server, h, [e] + es, k)
  {
    assert ([e] + es)[1..] == es;
  }

  /** It happens with the first request for more: a second page that counts, and the total is past the size of the list. */
  lemma LoadMoreOvercounts<T>(server: Server<T>, deps: nat, all: nat) returns (es: seq<Event>, k: Hook<T>)
    requires Honest(server, deps, all) && CountedAt(server, deps, 0) && CountedAt(server, deps, 1)
    requires |Pages(server, deps, 1)| < all
    ensures Run(server, Start(), es, k) && k.deps == deps && k.shown == 2 && k.total.Some? && k.total.value > all
  {
    var h0: Hook<T> := Start();
    var h1 := Next(server, h0, Change(true, deps));
    var h2 := Next(server, h1, Succeed(1));
    assert TokenAt(server, deps, 0) == Some(None);
    assert h2.continueRef == NextToken(server(deps, None)) && h2.continueRef.Some?;
    var h3 := Next(server, h2, LoadMore);
    k := Next(server, h3, Succeed(2));
    RunStep(server, h3, Succeed(2), [], k);
    RunStep(server, h2, LoadMore, [Succeed(2)], k);
    RunStep(server, h1, Succeed(1), [LoadMore] + [Succeed(2)], k);
    es := [Change(true, deps)] + ([Succeed(1)] + ([LoadMore] + [Succeed(2)]));
    RunStep(server, h0, Change(true, deps), es[1..], k);
    assert Inv(server, h0);
    RunKeepsInv(server, h0, es, k);
    assert k.total.Some?;
    TotalMissesAndRecounts(server, deps, 0, 2, all);
    NothingRecountedIff(server, deps, 0, 2, all);
  }

  lemma {:induction false} RunAppend<T>(server: Server<T>, h: Hook<T>, es: seq<Event>, k: Hook<T>, e: Event)
    requires Run(server, h, es, k) && Enabled(k, e)
    ensures Run(server, h, es + [e], Next(server, k, e))
    decreases |es|
  {
    hide Enabled, Next;
    if es == [] {
      assert (es + [e])[1..] == [];
    } else {
      RunAppend(server, Next(server, h, es[0]), es[1..], k, e);
      assert (es + [e])[1..] == es[1..] + [e];
    }
  }

  /** A refresh and n requests for more, each answered before the next. */
  function Loads(gen: nat, n: nat): (es: seq<Event>)
    ensures |es| == 2 * (n + 1)
  {
    if n == 0 then [Refresh] + [Succeed(gen + 1)] else Loads(gen, n - 1) + [LoadMore] + [Succeed(gen + n + 1)]
  }

  /** One request, answered at once. */
  lemma AskAndAnswer<T>(server: Server<T>, h: Hook<T>, es: seq<Event>, h0: Hook<T>, e: Event) returns (k: Hook<T>)
    requires Run(server, h, es, h0) && Inv(server, h0) && h0.ready
    requires e.Refresh? || (e.LoadMore? && h0.continueRef.Some?)
    ensures Run(server, h, es + [e] + [Succeed(h0.gen + 1)], k) && Inv(server, k)
    ensures k == Next(server, Next(server, h0, e), Succeed(h0.gen + 1))
  {
    StepKeepsInv(server, h0, e);
    var h1 := Next(server, h0, e);
    assert h1.gen == h0.gen + 1 && Enabled(h1, Succeed(h1.gen));
    StepKeepsInv(server, h1, Succeed(h1.gen));
    k := Next(server, h1, Succeed(h1.gen));
    hide Inv, Next;
    RunAppend(server, h, es, h0, e);
    RunAppend(server, h, es + [e], h1, Succeed(h1.gen));
  }

  /** From any state of a ready list, a refresh and n answered requests for more bring it to the first n + 1 pages. */
  lemma {:induction false} LoadingAll<T>(server: Server<T>, h: Hook<T>, n: nat) returns (k: Hook<T>)
    requires Inv(server, h) && h.ready && TokenAt(server, h.deps, n).Some?
    ensures Run(server, h, Loads(h.gen, n), k) && Inv(server, k)
    ensures k.ready && k.deps == h.deps && k.gen == h.gen + n + 1
    ensures k.shown == n + 1 && k.items == Pages(server, h.deps, n + 1) && k.total == TotalAt(server, h.deps, n + 1)
    ensures k.continueRef == NextToken(server(h.deps, TokenAt(server, h.deps, n).value))
  {
    if n == 0 {
      assert Run(server, h, [], h) && [] + [Event.Refresh] == [Event.Refresh];
      k := AskAndAnswer(server, h, [], h, Refresh);
    } else {
      var h0 := LoadingAll(server, h, n - 1);
      k := AskAndAnswer(server, h, Loads(h.gen, n - 1), h0, LoadMore);
    }
    hide Run;
  }

  // ---- The loading flag ----

  /** Nobody leaves the list unready, or the page, with the latest request still out. */
  predicate LeavesInPeace<T>(h: Hook<T>, e: Event) {
    (e.Unmount? || (e.Change? && !e.ready)) ==> !h.loading
  }

  ghost predicate Peaceful<T>(server: Server<T>, h: Hook<T>, es: seq<Event>)
    decreases |es|
  {
    es != [] ==> Enabled(h, es[0]) && LeavesInPeace(h, es[0]) && Peaceful(server, Next(server, h, es[0]), es[1..])
  }

  /** The flag shows whether the latest request is out. */
  predicate Accurate<T>(h: Hook<T>) {
    h.loading == (h.gen in h.inflight) && forall g :: g in h.inflight ==> g <= h.gen
  }

  /** An accurate flag stays accurate in exactly the steps that do not leave with a request out. */
  lemma AccurateStaysIff<T>(server: Server<T>, h: Hook<T>, e: Event)
    requires Accurate(h) && Enabled(h, e)
    ensures Accurate(Next(server, h, e)) == LeavesInPeace(h, e)
  {
    var k := Next(server, h, e);
    assert k.gen > h.gen ==> k.gen !in h.inflight;
  }

  /** So on peaceful runs it is accurate throughout. */
  lemma {:induction false} LoadingIsAccurate<T>(server: Server<T>, h: Hook<T>, es: seq<Event>, k: Hook<T>)
    requires Accurate(h) && Run(server, h, es, k) && Peaceful(server, h, es)
    ensures Accurate(k)
    decreases |es|
  {
    if es != [] {
      AccurateStaysIff(server, h, es[0]);
      hide Accurate, Enabled, LeavesInPeace, Next;
      LoadingIsAccurate(server, Next(server, h, es[0]), es[1..], k);
    }
  }

  /** Going unready during a request leaves the flag up for as long as the list stays unready, whatever comes back. */
  lemma {:induction false} LoadingSticks<T>(server: Server<T>, h: Hook<T>, es: seq<Event>, k: Hook<T>)
    requires h.loading && !h.ready && h.gen !in h.inflight && Run(server, h, es, k)
    requires forall g :: g in h.inflight ==> g <= h.gen
    requires forall e :: e in es ==> e.Change? ==> !e.ready
    ensures k.loading
    decreases |es|
  {
    if es != [] {
      assert es[0] in es;
      LoadingSticks(server, Next(server, h, es[0]), es[1..], k);
    }
  }

  // ---- The hook as an object ----

  class List<T(0)> {
    const server: Server<T>
    var ready: bool
    var deps: nat
    var genRef: nat
    var items: seq<T>
    var continueRef: Option<string>
    var hasMore: bool
    var loading: bool
    var total: Option<nat>
    var error: bool
    var inflight: map<nat, Fetch>
    var shown: nat

    ghost function View(): Hook<T>
      reads this
    {
      Hook(ready, deps, genRef, items, continueRef, hasMore, loading, total, error, inflight, shown)
    }

    constructor (server: Server<T>)
      ensures this.server == server && View() == Start()
    {
      this.server := server;
      ready, deps, genRef, items, continueRef, hasMore, loading := false, 0, 0, [], None, false, false;
      total, error, inflight, shown := None, false, map[], 0;
    }

    method FetchPage(token: Option<string>, gen: nat, append: bool)
      modifies this`loading, this`error, this`inflight
      ensures loading && !error && inflight == old(inflight)[gen := Fetch(token, deps, append)]
    {
      loading, error := true, false;
      inflight := inflight[gen := Fetch(token, deps, append)];
    }

    method Refresh()
      modifies this
      ensures View() == Next(server, old(View()), Event.Refresh)
    {
      if !ready {
        return;
      }
      genRef := genRef + 1;
      continueRef, hasMore, total := None, false, None;
      FetchPage(None, genRef, false);
    }

    method LoadMore()
      modifies this
      ensures View() == Next(server, old(View()), Event.LoadMore)
    {
      if !ready {
        return;
      }
      var token := continueRef;
      if token.None? {
        return;
      }
      genRef := genRef + 1;
      FetchPage(token, genRef, true);
    }

    /** A new generation with nothing accumulated. */
    method Reset(ready: bool, deps: nat)
      modifies this
      ensures View() == old(View()).(ready := ready, deps := deps, gen := old(genRef) + 1,
        items := [], continueRef := None, hasMore := false, total := None, shown := 0)
    {
      this.ready, this.deps := ready, deps;
      genRef := genRef + 1;
      items, continueRef, hasMore, total, shown := [], None, false, None, 0;
    }

    method Change(ready: bool, deps: nat)
      modifies this
      ensures View() == Next(server, old(View()), Event.Change(ready, deps))
    {
      hide Received;
      Reset(ready, deps);
      if ready {
        FetchPage(None, genRef, false);
      } else {
        error := false;
      }
    }

    /** The state setters of a response to the latest request. */
    method Accept(f: Fetch, page: Page<T>)
      modifies this`items, this`shown, this`continueRef, this`hasMore, this`total, this`loading
      ensures View() == Received(old(View()), f, page)
    {
      if f.append {
        items, shown := items + page.items, shown + 1;
      } else {
        items, shown := page.items, 1;
      }
      var next := if page.next == Some("") then None else page.next;
      continueRef := next;
      hasMore := next.Some?;
      var base := if f.append && total.Some? then total.value else 0;
      if page.remaining.Some? {
        total := Some(base + |page.items| + page.remaining.value);
      } else if next.None? {
        total := Some(base + |page.items|);
      } else if !f.append {
        total := None;
      }
      loading := false;
    }

    /** The continuation of a request, when its response or its error is there. */
    method Settle(gen: nat, ok: bool)
      requires gen in inflight
      modifies this
      ensures View() == Next(server, old(View()), if ok then Succeed(gen) else Fail(gen))
    {
      hide Received;
      var f := inflight[gen];
      inflight := inflight - {gen};
      if gen != genRef {
        return;
      }
      if ok {
        Accept(f, server(f.deps, f.token));
      } else {
        loading, error := false, true;
      }
    }
  }
}
