/**
 The token counter behind an inference response: it sees the body in whatever
 pieces the network delivers, and its answer must not depend on them.
 */
module UsageScanner {
  import opened Wrappers
  import opened ProtoWire
  import opened Sequences

  datatype Usage = Usage(prompt: int, completion: int, total: int)

  /** Library calls: white space trimmed at both ends, and the usage field of a JSON document, if it has one. */
  datatype Library = Library(trim: seq<byte> -> seq<byte>, usage: seq<byte> -> Option<Usage>)

  const NEWLINE: byte := 10
  const RETURN: byte := 13
  const DATA: seq<byte> := [100, 97, 116, 97, 58, 32]
  const DONE: seq<byte> := [91, 68, 79, 78, 69, 93]
  const CAP: nat := 256 * 1024

  // ---- What the answer should be, for a whole body ----

  function IndexByte(s: seq<byte>, b: byte): (i: nat)
    ensures i <= |s|
  {
    if s == [] || s[0] == b then 0 else 1 + IndexByte(s[1..], b)
  }

  lemma {:induction false} IndexIsFirst(s: seq<byte>, b: byte)
    ensures var i := IndexByte(s, b); (i < |s| ==> s[i] == b) && forall j :: 0 <= j < i ==> s[j] != b
  {
    if s != [] && s[0] != b {
      IndexIsFirst(s[1..], b);
      assert forall j :: 1 <= j < IndexByte(s, b) ==> s[j] == s[1..][j - 1];
    }
  }

  /** The complete lines, without their newlines. */
  function Lines(s: seq<byte>): seq<seq<byte>>
    decreases |s|
  {
    var i := IndexByte(s, NEWLINE);
    if i == |s| then [] else [s[..i]] + Lines(s[i + 1..])
  }

  /** What follows the last newline. */
  function Rest(s: seq<byte>): seq<byte>
    decreases |s|
  {
    var i := IndexByte(s, NEWLINE);
    if i == |s| then s else Rest(s[i + 1..])
  }

  function StripReturn(line: seq<byte>): seq<byte> {
    if line != [] && line[|line| - 1] == RETURN then line[..|line| - 1] else line
  }

  /** The usage a line carries. */
  function LineUsage(lib: Library, line: seq<byte>): Option<Usage> {
    var l := StripReturn(line);
    if !(DATA <= l) then None
    else
      var payload := lib.trim(l[|DATA|..]);
      if payload == [] || payload == DONE then None else lib.usage(payload)
  }

  /** The usage of the last line that carries one. */
  function LastUsage(lib: Library, before: Option<Usage>, lines: seq<seq<byte>>): Option<Usage>
    decreases |lines|
  {
    if lines == [] then before
    else LastUsage(lib, match LineUsage(lib, lines[0]) case Some(u) => Some(u) case None => before, lines[1..])
  }

  function Capped(s: seq<byte>): seq<byte> {
    if |s| <= CAP then s else s[..CAP]
  }

  function Answer(lib: Library, isStream: bool, body: seq<byte>): Option<Usage> {
    if isStream then LastUsage(lib, None, Lines(body))
    else if body == [] then None
    else lib.usage(Capped(body))
  }

  // ---- Pieces ----

  function Concat(chunks: seq<seq<byte>>): seq<byte> {
    if chunks == [] then [] else Concat(chunks[..|chunks| - 1]) + chunks[|chunks| - 1]
  }

  lemma IndexInConcat(s: seq<byte>, t: seq<byte>)
    ensures IndexByte(s, NEWLINE) < |s| ==> IndexByte(s + t, NEWLINE) == IndexByte(s, NEWLINE)
  {
    IndexIsFirst(s, NEWLINE);
    IndexIsFirst(s + t, NEWLINE);
    hide IndexByte;
    var i, j := IndexByte(s, NEWLINE), IndexByte(s + t, NEWLINE);
    assert forall k :: 0 <= k < |s| ==> (s + t)[k] == s[k];
    if i < |s| && i != j {
      assert false;
    }
  }

  lemma FirstLine(s: seq<byte>)
    ensures var i := IndexByte(s, NEWLINE);
      if i < |s| then Lines(s) == [s[..i]] + Lines(s[i + 1..]) && Rest(s) == Rest(s[i + 1..])
      else Lines(s) == [] && Rest(s) == s
  {
    hide IndexByte;
  }

  /** Cutting a body anywhere, the first part's lines come first and its rest joins the second part. */
  lemma {:induction false} CutAnywhere(s: seq<byte>, t: seq<byte>)
    ensures Lines(s + t) == Lines(s) + Lines(Rest(s) + t)
    ensures Rest(s + t) == Rest(Rest(s) + t)
    decreases |s|
  {
    hide Lines, Rest;
    var i := IndexByte(s, NEWLINE);
    FirstLine(s);
    if i < |s| {
      var u := s[i + 1..];
      IndexInConcat(s, t);
      CutAnywhere(u, t);
      FirstLine(s + t);
      assert (s + t)[i + 1..] == u + t && (s + t)[..i] == s[..i];
      Regroup([s[..i]], Lines(u), Lines(Rest(u) + t));
    } else {
      assert [] + Lines(s + t) == Lines(s + t);
    }
  }

  lemma {:induction false} LastUsageSplit(lib: Library, before: Option<Usage>, a: seq<seq<byte>>, b: seq<seq<byte>>)
    ensures LastUsage(lib, before, a + b) == LastUsage(lib, LastUsage(lib, before, a), b)
    decreases |a|
  {
    hide LineUsage;
    if a == [] {
      assert a + b == b;
    } else {
      LastUsageSplit(lib, match LineUsage(lib, a[0]) case Some(u) => Some(u) case None => before, a[1..], b);
      assert (a + b)[1..] == a[1..] + b;
    }
  }

  /** The rest holds no newline, so an end without one leaves its last line uncounted. */
  lemma {:induction false} RestHasNoNewline(s: seq<byte>)
    ensures NEWLINE !in Rest(s)
    ensures exists k :: 0 <= k <= |s| && s[k..] == Rest(s) && (k > 0 ==> s[k - 1] == NEWLINE)
    decreases |s|
  {
    var i := IndexByte(s, NEWLINE);
    if i < |s| {
      IndexIsFirst(s, NEWLINE);
      RestHasNoNewline(s[i + 1..]);
      var k :| 0 <= k <= |s[i + 1..]| && s[i + 1..][k..] == Rest(s[i + 1..]) && (k > 0 ==> s[i + 1..][k - 1] == NEWLINE);
      assert s[i + 1 + k..] == s[i + 1..][k..];
    } else {
      IndexIsFirst(s, NEWLINE);
      assert s[0..] == s;
    }
  }

  /** Each line with its newline, one after the other. */
  function Unlines(lines: seq<seq<byte>>): seq<byte> {
    if lines == [] then [] else lines[0] + [NEWLINE] + Unlines(lines[1..])
  }

  /** Lines and rest are the body, cut at every newline. */
  lemma {:induction false} LinesAreTheBody(s: seq<byte>)
    ensures Unlines(Lines(s)) + Rest(s) == s
    ensures forall line :: line in Lines(s) ==> NEWLINE !in line
    decreases |s|
  {
    var i := IndexByte(s, NEWLINE);
    FirstLine(s);
    IndexIsFirst(s, NEWLINE);
    hide IndexByte, Lines, Rest;
    if i < |s| {
      var more := s[i + 1..];
      LinesAreTheBody(more);
      assert s == s[..i] + [NEWLINE] + more;
      assert ([s[..i]] + Lines(more))[1..] == Lines(more);
      Regroup(s[..i] + [NEWLINE], Unlines(Lines(more)), Rest(more));
      assert forall k :: 0 <= k < i ==> s[..i][k] != NEWLINE;
    }
  }

  /** This line carries a usage, and none after it does. */
  ghost predicate LastCarries(lib: Library, lines: seq<seq<byte>>, i: int) {
    0 <= i < |lines| && LineUsage(lib, lines[i]).Some? && forall j :: i < j < |lines| ==> LineUsage(lib, lines[j]).None?
  }

  /** The answer is the usage of the one line that carries one and has none after it, and what was there before if none does. */
  lemma {:induction false} LastUsageIsTheLast(lib: Library, before: Option<Usage>, lines: seq<seq<byte>>)
    ensures (forall j :: 0 <= j < |lines| ==> LineUsage(lib, lines[j]).None?) ==> LastUsage(lib, before, lines) == before
    ensures forall i :: LastCarries(lib, lines, i) ==> LastUsage(lib, before, lines) == LineUsage(lib, lines[i])
    decreases |lines|
  {
    hide LineUsage;
    if lines != [] {
      var first := LineUsage(lib, lines[0]);
      LastUsageIsTheLast(lib, if first.Some? then first else before, lines[1..]);
      assert forall j :: 1 <= j < |lines| ==> lines[1..][j - 1] == lines[j];
      assert forall i :: i >= 1 && LastCarries(lib, lines, i) ==> LastCarries(lib, lines[1..], i - 1);
    }
  }

  /** An event line with a payload carries that document's usage, with or without a return at its end; every other line none. */
  lemma LineCarries(lib: Library, line: seq<byte>, payload: seq<byte>)
    requires payload == [] || payload[|payload| - 1] != RETURN
    ensures line == DATA + payload || line == DATA + payload + [RETURN] ==>
      LineUsage(lib, line) == if lib.trim(payload) in [[], DONE] then None else lib.usage(lib.trim(payload))
    ensures !(DATA <= line) ==> LineUsage(lib, line).None?
  {
    if line == DATA + payload + [RETURN] {
      assert StripReturn(line) == DATA + payload;
    } else if line == DATA + payload {
      assert line[|line| - 1] == if payload == [] then DATA[|DATA| - 1] else payload[|payload| - 1];
      assert StripReturn(line) == line;
    }
    assert (DATA + payload)[|DATA|..] == payload;
  }

  // ---- The scanner ----

  datatype State = State(partialLine: seq<byte>, whole: seq<byte>, observed: Option<Usage>)

  /** The state after a body has gone through, in one piece. */
  function After(lib: Library, isStream: bool, body: seq<byte>): State {
    if isStream then State(Rest(body), [], LastUsage(lib, None, Lines(body)))
    else State([], Capped(body), None)
  }

  lemma OneMoreChunk(lib: Library, isStream: bool, body: seq<byte>, p: seq<byte>)
    ensures var s := After(lib, isStream, body);
      After(lib, isStream, body + p) ==
        if isStream then
          State(Rest(s.partialLine + p), [], LastUsage(lib, s.observed, Lines(s.partialLine + p)))
        else State([], Capped(s.whole + p), None)
  {
    if isStream {
      CutAnywhere(body, p);
      LastUsageSplit(lib, None, Lines(body), Lines(Rest(body) + p));
    } else if |body| > CAP {
      assert Capped(body + p) == Capped(Capped(body) + p);
    }
  }

  class Scanner {
    const lib: Library
    const isStream: bool
    var partialLine: seq<byte>
    var whole: seq<byte>
    var observed: Option<Usage>

    ghost function View(): State
      reads this
    {
      State(partialLine, whole, observed)
    }

    constructor (lib: Library, isStream: bool)
      ensures this.lib == lib && this.isStream == isStream && View() == After(lib, isStream, [])
    {
      this.lib, this.isStream := lib, isStream;
      partialLine, whole, observed := [], [], None;
    }

    /** However the body was cut up before, this leaves what one piece would have left. */
    method Write(p: seq<byte>, ghost body: seq<byte>)
      requires View() == After(lib, isStream, body)
      modifies this
      ensures View() == After(lib, isStream, body + p)
    {
      OneMoreChunk(lib, isStream, body, p);
      if isStream {
        FeedStream(p);
      } else if |whole| < CAP {
        var remain := CAP - |whole|;
        if remain > |p| {
          remain := |p|;
        }
        ghost var before := whole;
        whole := whole + p[..remain];
        assert whole == Capped(before + p);
      } else {
        assert whole == Capped(whole + p);
      }
    }

    method FeedStream(p: seq<byte>)
      modifies this`partialLine, this`observed
      ensures partialLine == Rest(old(partialLine) + p)
      ensures observed == LastUsage(lib, old(observed), Lines(old(partialLine) + p))
    {
      partialLine := partialLine + p;
      ghost var all, first := partialLine, observed;
      while true
        invariant Rest(partialLine) == Rest(all)
        invariant LastUsage(lib, observed, Lines(partialLine)) == LastUsage(lib, first, Lines(all))
        decreases |partialLine|
      {
        var i := IndexByte(partialLine, NEWLINE);
        if i == |partialLine| {
          return;
        }
        var line := partialLine[..i];
        ghost var lines := Lines(partialLine);
        partialLine := partialLine[i + 1..];
        assert lines[0] == line && lines[1..] == Lines(partialLine);
        ProcessLine(line);
      }
    }

    method ProcessLine(line: seq<byte>)
      modifies this`observed
      ensures observed == match LineUsage(lib, line) case Some(u) => Some(u) case None => old(observed)
    {
      var l := line;
      var n := |l|;
      if n > 0 && l[n - 1] == RETURN {
        l := l[..n - 1];
      }
      if !(DATA <= l) {
        return;
      }
      var payload := lib.trim(l[|DATA|..]);
      if |payload| == 0 || payload == DONE {
        return;
      }
      var u := lib.usage(payload);
      if u.Some? {
        observed := u;
      }
    }

    method Done(ghost body: seq<byte>) returns (u: Option<Usage>)
      requires View() == After(lib, isStream, body)
      ensures u == Answer(lib, isStream, body)
    {
      if isStream {
        return observed;
      }
      if |whole| == 0 {
        return None;
      }
      u := lib.usage(whole);
    }
  }

  /** Any way of splitting a body into writes gives the answer for the whole of it. */
  method Scan(lib: Library, isStream: bool, chunks: seq<seq<byte>>) returns (u: Option<Usage>)
    ensures u == Answer(lib, isStream, Concat(chunks))
    ensures var body := Concat(chunks);
      !isStream ==> u == if body == [] then None else lib.usage(if |body| <= CAP then body else body[..CAP])
  {
    var scanner := new Scanner(lib, isStream);
    assert chunks[..0] == [];
    for i := 0 to |chunks|
      invariant scanner.lib == lib && scanner.isStream == isStream
      invariant scanner.View() == After(lib, isStream, Concat(chunks[..i]))
    {
      scanner.Write(chunks[i], Concat(chunks[..i]));
      assert chunks[..i + 1][..i] == chunks[..i];
    }
    assert chunks[..|chunks|] == chunks;
    u := scanner.Done(Concat(chunks));
  }
}
