/** Texts joined by a separator and split at it. */
module Text {
  /** One character in front of pieces that are there already. */
  function Onto(c: char, sep: char, pieces: seq<string>): seq<string>
    requires pieces != []
  {
    if c == sep then [""] + pieces else [[c] + pieces[0]] + pieces[1..]
  }

  function Split(s: string, sep: char): (parts: seq<string>)
    ensures |parts| > 0
  {
    if s == "" then [""] else Onto(s[0], sep, Split(s[1..], sep))
  }

  function Join(parts: seq<string>, sep: char): string {
    if |parts| == 0 then "" else if |parts| == 1 then parts[0] else parts[0] + [sep] + Join(parts[1..], sep)
  }

  /** The pieces of all the parts, one part after the other. */
  function Pieces(parts: seq<string>, sep: char): seq<string> {
    if parts == [] then [] else Split(parts[0], sep) + Pieces(parts[1..], sep)
  }

  lemma OntoConcat(c: char, sep: char, a: seq<string>, b: seq<string>)
    requires a != []
    ensures Onto(c, sep, a + b) == Onto(c, sep, a) + b
  {
  }

  lemma {:induction false} SplitConcat(p: string, rest: string, sep: char)
    ensures Split(p + [sep] + rest, sep) == Split(p, sep) + Split(rest, sep)
  {
    var s := p + [sep] + rest;
    if p == "" {
      assert s[1..] == rest;
    } else {
      SplitConcat(p[1..], rest, sep);
      assert s[1..] == p[1..] + [sep] + rest && s[0] == p[0];
      OntoConcat(p[0], sep, Split(p[1..], sep), Split(rest, sep));
      hide Onto;
    }
  }

  lemma {:induction false} SplitOneIff(p: string, sep: char)
    ensures (|Split(p, sep)| == 1) == (sep !in p)
    ensures sep !in p ==> Split(p, sep) == [p]
  {
    if p != "" {
      SplitOneIff(p[1..], sep);
      assert [p[0]] + p[1..] == p;
    }
  }

  /** Splitting what was joined gives the pieces of the parts, whatever these contain. */
  lemma {:induction false} SplitJoined(parts: seq<string>, sep: char)
    requires |parts| > 0
    ensures Split(Join(parts, sep), sep) == Pieces(parts, sep)
  {
    if |parts| > 1 {
      SplitJoined(parts[1..], sep);
      SplitConcat(parts[0], Join(parts[1..], sep), sep);
    } else {
      assert Split(parts[0], sep) + [] == Split(parts[0], sep);
    }
  }

  lemma {:induction false} PiecesCount(parts: seq<string>, sep: char)
    ensures |Pieces(parts, sep)| >= |parts|
    ensures (|Pieces(parts, sep)| == |parts|) == (forall p :: p in parts ==> sep !in p)
    ensures (forall p :: p in parts ==> sep !in p) ==> Pieces(parts, sep) == parts
  {
    if parts != [] {
      SplitOneIff(parts[0], sep);
      PiecesCount(parts[1..], sep);
      assert parts == [parts[0]] + parts[1..];
      hide Split;
    }
  }

  lemma {:induction false} JoinSplit(s: string, sep: char)
    ensures Join(Split(s, sep), sep) == s
  {
    if s != "" {
      JoinSplit(s[1..], sep);
      var rest := Split(s[1..], sep);
      assert s == [s[0]] + s[1..];
      if s[0] == sep {
        assert ([""] + rest)[1..] == rest;
      } else {
        var first := [[s[0]] + rest[0]] + rest[1..];
        assert first[1..] == rest[1..];
      }
    }
  }

  /** Joined texts agree exactly when their pieces do. */
  lemma JoinedAgreeIff(a: seq<string>, b: seq<string>, sep: char)
    requires |a| > 0 && |b| > 0
    ensures (Join(a, sep) == Join(b, sep)) == (Pieces(a, sep) == Pieces(b, sep))
  {
    SplitJoined(a, sep);
    SplitJoined(b, sep);
    JoinSplit(Join(a, sep), sep);
    JoinSplit(Join(b, sep), sep);
  }

  /** Splitting undoes joining parts that are free of the separator. */
  lemma SplitJoin(parts: seq<string>, sep: char)
    requires |parts| > 0 && forall p :: p in parts ==> sep !in p
    ensures Split(Join(parts, sep), sep) == parts
  {
    SplitJoined(parts, sep);
    PiecesCount(parts, sep);
  }

  lemma {:induction false} JoinMembers(parts: seq<string>, sep: char, c: char)
    requires c != sep && forall p :: p in parts ==> c !in p
    ensures c !in Join(parts, sep)
  {
    if |parts| > 0 {
      assert parts[0] in parts;
      if |parts| > 1 {
        JoinMembers(parts[1..], sep, c);
      }
    }
  }
}
