/**
 The in-process log ring: a fixed array of slots with a write head, refined
 against the unbounded log of everything ever written to it.

 `Write` is one step here. The program takes the sequence number just before
 it takes the lock, so two writers may store their entries in the other order;
 that interleaving is outside this model.
 */
module LogRing {
  import opened Wrappers

  /** Sequence numbers are 64-bit and wrap around. */
  const SEQ_SPACE: nat := 0x1_0000_0000_0000_0000

  const DEFAULT_CAPACITY: nat := 50_000

  /** What a log call supplies; the ring adds the sequence number. */
  datatype Record = Record(timeNs: int, level: string, logger: string, msg: string, fields: map<string, string>)

  datatype Entry = Entry(seqNo: nat, record: Record)

  // ---- The unbounded log and what a bounded reader may see of it ----

  /** The 64-bit atomic add of one. */
  function Bump(n: nat): (r: nat) {
    if n + 1 == SEQ_SPACE then 0 else n + 1
  }

  /** The counter after `n` writes. */
  ghost function Counter(anchor: nat, n: nat): (c: nat) {
    if n == 0 then anchor else Bump(Counter(anchor, n - 1))
  }

  /** Every entry emitted by a process anchored at `anchor`, oldest first. */
  ghost function Emitted(anchor: nat, history: seq<Record>): (es: seq<Entry>)
    ensures |es| == |history|
  {
    if history == [] then []
    else
      var n := |history| - 1;
      Emitted(anchor, history[..n]) + [Entry(Counter(anchor, n + 1), history[n])]
  }

  lemma {:induction false} EmittedAt(anchor: nat, history: seq<Record>, i: nat)
    requires i < |history|
    ensures Emitted(anchor, history)[i] == Entry(Counter(anchor, i + 1), history[i])
  {
    if i + 1 < |history| {
      EmittedAt(anchor, history[..|history| - 1], i);
    }
  }

  lemma {:induction false} CounterIsSum(anchor: nat, n: nat)
    requires anchor < SEQ_SPACE
    ensures anchor + n < SEQ_SPACE ==> Counter(anchor, n) == anchor + n
    ensures anchor + n == SEQ_SPACE ==> Counter(anchor, n) == 0
  {
    if n > 0 {
      CounterIsSum(anchor, n - 1);
    }
  }

  /** The last `capacity` entries. */
  function Retained(es: seq<Entry>, capacity: nat): (r: seq<Entry>) {
    if |es| <= capacity then es else es[|es| - capacity..]
  }

  /** The entries above a cursor, in order. */
  function After(es: seq<Entry>, since: nat): (r: seq<Entry>) {
    if es == [] then []
    else if es[0].seqNo <= since then After(es[1..], since)
    else [es[0]] + After(es[1..], since)
  }

  function First(es: seq<Entry>, limit: nat): (r: seq<Entry>) {
    if |es| <= limit then es else es[..limit]
  }

  ghost predicate Increasing(es: seq<Entry>) {
    forall i, j :: 0 <= i < j < |es| ==> es[i].seqNo < es[j].seqNo
  }

  lemma {:induction false} AfterConcat(a: seq<Entry>, b: seq<Entry>, since: nat)
    ensures After(a + b, since) == After(a, since) + After(b, since)
  {
    if a == [] {
      assert a + b == b;
    } else {
      assert (a + b)[1..] == a[1..] + b;
      AfterConcat(a[1..], b, since);
    }
  }

  /** `After` keeps exactly the entries above the cursor. */
  lemma {:induction false} AfterMembers(es: seq<Entry>, since: nat, e: Entry)
    ensures e in After(es, since) <==> e in es && e.seqNo > since
  {
    if es != [] {
      AfterMembers(es[1..], since, e);
    }
  }

  lemma AfterNext(es: seq<Entry>, i: nat, since: nat)
    requires i < |es|
    ensures After(es[..i + 1], since) == After(es[..i], since) + (if es[i].seqNo > since then [es[i]] else [])
  {
    AfterConcat(es[..i], [es[i]], since);
    assert es[..i + 1] == es[..i] + [es[i]];
  }

  lemma AfterPrefix(es: seq<Entry>, i: nat, since: nat)
    requires i <= |es|
    ensures After(es[..i], since) <= After(es, since)
    ensures i == |es| ==> After(es[..i], since) == After(es, since)
  {
    AfterConcat(es[..i], es[i..], since);
    assert es == es[..i] + es[i..];
  }

  /** The counter never wraps, and every number is above the anchor, exactly when it stays below 2^64. */
  lemma IncreasingFromAnchorIff(anchor: nat, history: seq<Record>)
    requires anchor < SEQ_SPACE
    ensures (Increasing(Emitted(anchor, history)) && forall e :: e in Emitted(anchor, history) ==> e.seqNo > anchor)
       <==> anchor + |history| < SEQ_SPACE
  {
    var es := Emitted(anchor, history);
    if anchor + |history| >= SEQ_SPACE {
      var wrap := SEQ_SPACE - anchor;
      CounterIsSum(anchor, wrap);
      EmittedAt(anchor, history, wrap - 1);
      assert es[wrap - 1].seqNo == 0;
      assert es[wrap - 1] in es;
    } else {
      forall i | 0 <= i < |es|
        ensures es[i].seqNo == anchor + i + 1
      {
        CounterIsSum(anchor, i + 1);
        EmittedAt(anchor, history, i);
      }
    }
  }

  /** One more write appends one entry, numbered by the bumped counter. */
  lemma EmittedAppend(anchor: nat, history: seq<Record>, record: Record)
    ensures Emitted(anchor, history + [record])
         == Emitted(anchor, history) + [Entry(Bump(Counter(anchor, |history|)), record)]
  {
    assert (history + [record])[..|history|] == history;
  }

  // ---- The ring ----

  /** Reduces an index that is at most once around the ring. */
  method WrapIndex(x: nat, n: nat) returns (r: nat)
    requires 0 < n && x < 2 * n
    ensures r == if x < n then x else x - n
  {
    if x >= n {
      assert x == 1 * n + (x - n);
    }
    r := x % n;
  }

  /** The slot of the i-th oldest entry. A ring that is not full starts at slot 0. */
  function SlotOf(capacity: nat, head: nat, count: nat, i: nat): (s: nat)
    requires count <= capacity && head < capacity && i < count
    ensures s < capacity
  {
    if count < capacity then i
    else if head + i < capacity then head + i else head + i - capacity
  }

  /** The slots hold exactly `contents`, oldest first. */
  ghost predicate Represents(slots: seq<Option<Entry>>, head: nat, count: nat, contents: seq<Entry>) {
    && head < |slots|
    && count == |contents| <= |slots|
    && (count < |slots| ==> head == count)
    && forall i :: 0 <= i < count ==> slots[SlotOf(|slots|, head, count, i)] == Some(contents[i])
  }

  /** What the retained window becomes when `e` is stored. */
  ghost function Pushed(contents: seq<Entry>, capacity: nat, e: Entry): seq<Entry>
    requires 0 < capacity
  {
    (if |contents| < capacity then contents else contents[1..]) + [e]
  }

  /** Appending to the log drops the oldest retained entry exactly when the window is full. */
  lemma RetainedAppend(es: seq<Entry>, e: Entry, capacity: nat)
    requires capacity > 0
    ensures Retained(es + [e], capacity) == Pushed(Retained(es, capacity), capacity, e)
  {
  }

  lemma StoreKeepsOrder(slots: seq<Option<Entry>>, head: nat, count: nat, contents: seq<Entry>, e: Entry,
                        slots': seq<Option<Entry>>, head': nat, count': nat)
    requires Represents(slots, head, count, contents)
    requires slots' == slots[head := Some(e)]
    requires head' == if head + 1 < |slots| then head + 1 else 0
    requires count' == if count < |slots| then count + 1 else count
    ensures Represents(slots', head', count', Pushed(contents, |slots|, e))
  {
    var n := |slots|;
    var contents' := Pushed(contents, n, e);
    forall i | 0 <= i < count'
      ensures slots'[SlotOf(n, head', count', i)] == Some(contents'[i])
    {
      if i < count' - 1 {
        var was := if count < n then i else i + 1;
        assert contents'[i] == contents[was];
        assert SlotOf(n, head', count', i) == SlotOf(n, head, count, was);
      }
    }
  }

  class RingCore {
    const buf: array<Option<Entry>>
    var head: nat
    var count: nat
    var seqNo: nat
    ghost const anchor: nat
    ghost var history: seq<Record>

    ghost function Log(): seq<Entry>
      reads this
    {
      Emitted(anchor, history)
    }

    /** The abstract value: the last min(n, capacity) entries written. */
    ghost function Contents(): seq<Entry>
      reads this
    {
      Retained(Log(), buf.Length)
    }

    ghost predicate Valid()
      reads this, buf
    {
      && anchor < SEQ_SPACE
      && seqNo == Counter(anchor, |history|)
      && Represents(buf[..], head, count, Contents())
    }

    constructor (capacity: int, unixNano: nat)
      requires unixNano < SEQ_SPACE
      ensures Valid() && fresh(buf)
      ensures history == [] && anchor == unixNano
      ensures buf.Length == if capacity <= 0 then DEFAULT_CAPACITY else capacity
    {
      buf := new Option<Entry>[if capacity <= 0 then DEFAULT_CAPACITY else capacity](_ => None);
      head, count, seqNo := 0, 0, unixNano;
      anchor, history := unixNano, [];
    }

    method Write(record: Record)
      requires Valid()
      modifies this, buf
      ensures Valid()
      ensures history == old(history) + [record]
    {
      ghost var log, slots, head0, count0 := Log(), buf[..], head, count;
      seqNo := Bump(seqNo);
      var e := Entry(seqNo, record);
      buf[head] := Some(e);
      head := WrapIndex(head + 1, buf.Length);
      if count < buf.Length {
        count := count + 1;
      }
      StoreKeepsOrder(slots, head0, count0, Retained(log, buf.Length), e, buf[..], head, count);
      EmittedAppend(anchor, history, record);
      RetainedAppend(log, e, buf.Length);
      history := history + [record];
      assert Contents() == Pushed(Retained(log, buf.Length), buf.Length, e);
    }

    method Snapshot(sinceSeq: nat, limit: int) returns (out: seq<Entry>)
      requires Valid()
      ensures out == First(After(Contents(), sinceSeq), if limit <= 0 then buf.Length else limit)
    {
      var lim := if limit <= 0 then buf.Length else limit;
      if count == 0 {
        return [];
      }
      ghost var all := Contents();
      var oldest := if count == buf.Length then head else 0;
      out := [];
      var i := 0;
      while i < count && |out| < lim
        invariant 0 <= i <= count
        invariant out == After(all[..i], sinceSeq)
        invariant |out| <= lim
      {
        var slot := WrapIndex(oldest + i, buf.Length);
        assert buf[slot] == buf[..][SlotOf(buf.Length, head, count, i)] == Some(all[i]);
        AfterNext(all, i, sinceSeq);
        match buf[slot]
        case None =>
        case Some(e) =>
          if e.seqNo > sinceSeq {
            out := out + [e];
          }
        i := i + 1;
      }
      AfterPrefix(all, i, sinceSeq);
    }

    /** The number of the newest entry; before the first write it is the anchor. */
    method LastSeq() returns (s: nat)
      requires Valid()
      ensures s == if history == [] then anchor else Log()[|history| - 1].seqNo
    {
      s := seqNo;
    }
  }

  // ---- GET /debug/logs ----

  const DEFAULT_LIMIT: nat := 500
  const MAX_LIMIT: nat := 5000

  /** One query parameter: missing, unparsable, or a number. */
  datatype Param = Absent | Malformed | Number(n: int)

  datatype LogsReply =
    | BadRequest
    | Lines(lines: seq<Entry>, nextSeq: nat, headSeq: nat)

  /** The limit the handler really applies. */
  function EffectiveLimit(limit: int): (l: nat)
    ensures 1 <= l <= MAX_LIMIT
    ensures 1 <= limit <= MAX_LIMIT ==> l == limit
    ensures limit > MAX_LIMIT ==> l == MAX_LIMIT
    ensures limit <= 0 ==> l == DEFAULT_LIMIT
  {
    if limit <= 0 then DEFAULT_LIMIT else if limit > MAX_LIMIT then MAX_LIMIT else limit
  }

  method ServeLogs(ring: RingCore, since: Param, limit: Param) returns (reply: LogsReply)
    requires ring.Valid()
    ensures reply.BadRequest? <==> since.Malformed? || (since.Number? && !(0 <= since.n < SEQ_SPACE)) || limit.Malformed?
    ensures reply.Lines? ==>
      && var from := if since.Number? then since.n else 0;
      && reply.lines == First(After(ring.Contents(), from), EffectiveLimit(if limit.Number? then limit.n else 0))
      && reply.nextSeq == (if reply.lines == [] then from else reply.lines[|reply.lines| - 1].seqNo)
      && reply.headSeq == (if ring.history == [] then ring.anchor else ring.Log()[|ring.history| - 1].seqNo)
  {
    var from := 0;
    match since {
      case Absent =>
      case Malformed => return BadRequest;
      case Number(n) =>
        if n < 0 || n >= SEQ_SPACE {
          return BadRequest;
        }
        from := n;
    }
    var lim := DEFAULT_LIMIT;
    match limit {
      case Absent =>
      case Malformed => return BadRequest;
      case Number(n) =>
        if n > 0 {
          lim := n;
        }
    }
    if lim > MAX_LIMIT {
      lim := MAX_LIMIT;
    }
    var lines := ring.Snapshot(from, lim);
    var nextSeq := if |lines| > 0 then lines[|lines| - 1].seqNo else from;
    var headSeq := ring.LastSeq();
    reply := Lines(lines, nextSeq, headSeq);
  }
}
