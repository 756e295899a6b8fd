/**
 The fingerprint that decides whether Helm may be skipped: chart source,
 release identity and a digest of the parsed values, joined by NUL and hashed.
 */
module PluginFingerprint {
  import opened Wrappers
  import opened Text

  datatype Chart = Chart(kind: string, repo: string, name: string, version: string, sha256: string)

  datatype Spec = Spec(chart: Chart, releaseName: string, releaseNamespace: string, values: string)

  /** The value tree that Helm is handed. */
  type Values(==,!new)

  /** Digest in hex, YAML parser, and JSON with sorted keys, which fails on trees JSON cannot express. */
  datatype Library = Library(
    sha: string -> string,
    parse: string -> Option<Values>,
    canon: Values -> Option<string>)

  const NUL: char := '\0'

  predicate NulFree(s: string) {
    NUL !in s
  }

  /** What is assumed of the libraries: no collisions, hex digests, and JSON that reads back as itself. */
  ghost predicate Faithful(lib: Library) {
    && (forall a, b :: lib.sha(a) == lib.sha(b) ==> a == b)
    && (forall a :: NulFree(lib.sha(a)))
    && (forall v, t :: lib.canon(v) == Some(t) ==> lib.parse(t) == Some(v))
  }

  /** The text whose digest stands for the values: canonical JSON, or the text itself when there is none. */
  function Canonical(lib: Library, text: string): string {
    match lib.parse(text)
    case None => text
    case Some(v) =>
      match lib.canon(v)
      case Some(json) => json
      case None => text
  }

  function ValuesHash(lib: Library, text: string): string {
    lib.sha(Canonical(lib, text))
  }

  function Parts(lib: Library, s: Spec): seq<string> {
    [s.chart.kind, s.chart.repo, s.chart.name, s.chart.version, s.chart.sha256,
     s.releaseName, s.releaseNamespace, ValuesHash(lib, s.values)]
  }

  function AttemptHash(lib: Library, s: Spec): string {
    lib.sha(Join(Parts(lib, s), NUL))
  }

  /** No field that goes into the join undigested contains the separator. */
  predicate Clean(s: Spec) {
    && NulFree(s.chart.kind) && NulFree(s.chart.repo) && NulFree(s.chart.name)
    && NulFree(s.chart.version) && NulFree(s.chart.sha256)
    && NulFree(s.releaseName) && NulFree(s.releaseNamespace)
  }

  /** Two texts that stand for the same Helm input as far as the digest can tell. */
  predicate SameValues(lib: Library, t1: string, t2: string) {
    t1 == t2 || (lib.parse(t1).Some? && lib.parse(t1) == lib.parse(t2) && lib.canon(lib.parse(t1).value).Some?)
  }

  /** Reformatted texts of one tree share a digest, and only those. */
  lemma ValuesHashIff(lib: Library, t1: string, t2: string)
    requires Faithful(lib)
    ensures (ValuesHash(lib, t1) == ValuesHash(lib, t2)) == SameValues(lib, t1, t2)
    ensures ValuesHash(lib, t1) == ValuesHash(lib, t2) ==> lib.parse(t1) == lib.parse(t2)
  {
    if ValuesHash(lib, t1) == ValuesHash(lib, t2) {
      assert Canonical(lib, t1) == Canonical(lib, t2);
      CanonicalParses(lib, t1);
      CanonicalParses(lib, t2);
    }
  }

  lemma CanonicalParses(lib: Library, t: string)
    requires Faithful(lib)
    ensures lib.parse(Canonical(lib, t)) == lib.parse(t)
  {
  }

  /**
   Fingerprints agree exactly when the fields fall into the same pieces at their
   NULs. With one spec free of NUL that is when chart, release and values are the
   same for Helm, and the other spec is free of NUL as well.
   */
  lemma AttemptHashIff(lib: Library, s1: Spec, s2: Spec)
    requires Faithful(lib)
    ensures (AttemptHash(lib, s1) == AttemptHash(lib, s2))
      == (Pieces(Parts(lib, s1), NUL) == Pieces(Parts(lib, s2), NUL))
    ensures Clean(s1) ==>
      (AttemptHash(lib, s1) == AttemptHash(lib, s2)) ==
        (s1.chart == s2.chart && s1.releaseName == s2.releaseName
         && s1.releaseNamespace == s2.releaseNamespace && SameValues(lib, s1.values, s2.values))
    ensures Clean(s1) && AttemptHash(lib, s1) == AttemptHash(lib, s2) ==>
      Clean(s2) && lib.parse(s1.values) == lib.parse(s2.values)
  {
    var a, b := Parts(lib, s1), Parts(lib, s2);
    JoinedAgreeIff(a, b, NUL);
    ValuesHashIff(lib, s1.values, s2.values);
    if Clean(s1) && AttemptHash(lib, s1) == AttemptHash(lib, s2) {
      CleanParts(lib, s1);
      PiecesCount(a, NUL);
      PiecesCount(b, NUL);
      hide Pieces, Join, ValuesHash;
      FieldsFromParts(lib, s1, s2);
    }
  }

  lemma CleanParts(lib: Library, s: Spec)
    requires Faithful(lib) && Clean(s)
    ensures forall p :: p in Parts(lib, s) ==> NulFree(p)
  {
  }

  lemma FieldsFromParts(lib: Library, s1: Spec, s2: Spec)
    requires Parts(lib, s1) == Parts(lib, s2)
    ensures s1.chart == s2.chart && s1.releaseName == s2.releaseName && s1.releaseNamespace == s2.releaseNamespace
    ensures ValuesHash(lib, s1.values) == ValuesHash(lib, s2.values)
  {
    var a, b := Parts(lib, s1), Parts(lib, s2);
    assert a[0] == b[0] && a[1] == b[1] && a[2] == b[2] && a[3] == b[3] && a[4] == b[4]
      && a[5] == b[5] && a[6] == b[6] && a[7] == b[7];
  }

  lemma JoinStep(p: string, rest: seq<string>)
    requires |rest| > 0
    ensures Join([p] + rest, NUL) == p + [NUL] + Join(rest, NUL)
  {
    assert ([p] + rest)[1..] == rest;
  }

  lemma ThreeJoin(p: string, q: string, r: string, rest: seq<string>)
    requires |rest| > 0
    ensures Join([p, q, r] + rest, NUL) == p + [NUL] + (q + [NUL] + (r + [NUL] + Join(rest, NUL)))
  {
    hide Join;
    JoinStep(r, rest);
    JoinStep(q, [r] + rest);
    JoinStep(p, [q] + ([r] + rest));
    assert [p, q, r] + rest == [p] + ([q] + ([r] + rest));
  }

  /** With a NUL in a field two different charts share a fingerprint, whatever the digest. */
  lemma NulCollides(lib: Library, kind: string, a: string, b: string, c: string, s: Spec)
    ensures var s1 := s.(chart := s.chart.(kind := kind, repo := a + [NUL] + b, name := c));
      var s2 := s.(chart := s.chart.(kind := kind, repo := a, name := b + [NUL] + c));
      s1.chart != s2.chart && AttemptHash(lib, s1) == AttemptHash(lib, s2)
  {
    var s1 := s.(chart := s.chart.(kind := kind, repo := a + [NUL] + b, name := c));
    var s2 := s.(chart := s.chart.(kind := kind, repo := a, name := b + [NUL] + c));
    var rest := Parts(lib, s)[3..];
    ThreeJoin(kind, a + [NUL] + b, c, rest);
    ThreeJoin(kind, a, b + [NUL] + c, rest);
    assert Parts(lib, s1) == [kind, a + [NUL] + b, c] + rest;
    assert Parts(lib, s2) == [kind, a, b + [NUL] + c] + rest;
    var tail := Join(rest, NUL);
    assert a + [NUL] + b + [NUL] + (c + [NUL] + tail) == a + [NUL] + (b + [NUL] + c + [NUL] + tail);
    assert |a + [NUL] + b| > |a|;
  }
}
