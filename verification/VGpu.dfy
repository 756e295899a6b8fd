/**
 The vGPU view of a cluster: card inventories and pod assignments are decoded
 from annotations, assignments are added to the cards in place, and the sums are
 rolled up. Machine integers are taken not to overflow in the sums.
 */
module VGpu {
  import opened Wrappers
  import opened Text
  import opened Sequences

  // ---- Numbers ----

  predicate Digits(s: string) {
    s != "" && forall i :: 0 <= i < |s| ==> '0' <= s[i] <= '9'
  }

  function Decimal(s: string): nat
    requires forall i :: 0 <= i < |s| ==> '0' <= s[i] <= '9'
  {
    if s == "" then 0 else Decimal(s[..|s| - 1]) * 10 + (s[|s| - 1] as int - '0' as int)
  }

  datatype Number = Number(value: int, ok: bool)

  const INT64: int := 0x8000_0000_0000_0000

  /** A number out of range fails with the nearest one in range; anything else that fails, with 0. */
  function Atoi(s: string): Number {
    var negative := s != "" && s[0] == '-';
    var digits := if s != "" && (s[0] == '-' || s[0] == '+') then s[1..] else s;
    if !Digits(digits) then Number(0, false)
    else
      var n := Decimal(digits);
      if negative then (if n > INT64 then Number(0 - INT64, false) else Number(0 - n, true))
      else if n >= INT64 then Number(INT64 - 1, false)
      else Number(n, true)
  }

  function ParseBool(s: string): Option<bool> {
    if s in ["1", "t", "T", "TRUE", "true", "True"] then Some(true)
    else if s in ["0", "f", "F", "FALSE", "false", "False"] then Some(false)
    else None
  }

  // ---- Annotations ----

  datatype Usage = Usage(ns: string, name: string, memory: int, cores: int)

  datatype Card = Card(
    index: nat, uuid: string, number: int, memory: int, kind: string, health: bool, sharing: string,
    usedMemory: int, usedCores: int, usedNumber: nat, pods: seq<Usage>)

  datatype Device = Device(uuid: string, memory: int, cores: int)

  /** One card of a register annotation; entries that do not parse are skipped. */
  function DecodeCard(index: nat, entry: string): Option<Card> {
    var items := Split(entry, ',');
    if ',' !in entry || |items| < 6 then None
    else
      var count, memory, health := Atoi(items[1]), Atoi(items[2]), ParseBool(items[4]);
      if !count.ok || !memory.ok || health.None? then None
      else Some(Card(index, items[0], count.value, memory.value, items[3], health.value, items[5], 0, 0, 0, []))
  }

  function DecodeCards(entries: seq<string>): (cards: seq<Card>) {
    if entries == [] then []
    else
      var n := |entries| - 1;
      match DecodeCard(n, entries[n])
      case Some(c) => DecodeCards(entries[..n]) + [c]
      case None => DecodeCards(entries[..n])
  }

  function DecodeNodeRegister(s: string): seq<Card> {
    if ':' !in s then [] else DecodeCards(Split(s, ':'))
  }

  /** Unused cards in the order of their indexes, all below a bound. */
  ghost predicate Fresh(cards: seq<Card>, bound: nat) {
    && (forall i :: 0 <= i < |cards| ==> cards[i].index < bound && Unused(cards[i]))
    && (forall i, j :: 0 <= i < j < |cards| ==> cards[i].index < cards[j].index)
  }

  lemma FreshGrows(cards: seq<Card>, bound: nat, c: Card)
    requires Fresh(cards, bound) && c.index == bound && Unused(c)
    ensures Fresh(cards + [c], bound + 1)
  {
  }

  /** A fresh inventory is unused, and its order by index is the order it has, so sorting it changes nothing. */
  lemma {:induction false} InventoryIsFresh(entries: seq<string>)
    ensures Fresh(DecodeCards(entries), |entries|)
  {
    hide DecodeCard, Unused;
    if entries != [] {
      var n := |entries| - 1;
      InventoryIsFresh(entries[..n]);
      EntryIsFresh(n, entries[n]);
      var before, entry := DecodeCards(entries[..n]), DecodeCard(n, entries[n]);
      if entry.Some? {
        FreshGrows(before, n, entry.value);
      }
    }
  }

  lemma EntryIsFresh(index: nat, entry: string)
    ensures DecodeCard(index, entry).Some? ==>
      DecodeCard(index, entry).value.index == index && Unused(DecodeCard(index, entry).value)
  {
    hide Atoi, ParseBool, Split;
  }

  /**
   The decoded cards are exactly the entries that parse: each is there, under its
   own position, and nothing else is. With their order by position that is each once.
   */
  lemma {:induction false} CardsAreThoseThatParse(entries: seq<string>)
    ensures forall i :: 0 <= i < |entries| && DecodeCard(i, entries[i]).Some? ==>
      DecodeCard(i, entries[i]).value in DecodeCards(entries)
    ensures forall c :: c in DecodeCards(entries) ==>
      c.index < |entries| && DecodeCard(c.index, entries[c.index]) == Some(c)
  {
    hide DecodeCard;
    if entries != [] {
      var n := |entries| - 1;
      CardsAreThoseThatParse(entries[..n]);
      EntryIsFresh(n, entries[n]);
      assert forall i :: 0 <= i < n ==> entries[..n][i] == entries[i];
    }
  }

  predicate Unused(c: Card) {
    c.usedMemory == 0 && c.usedCores == 0 && c.usedNumber == 0 && c.pods == []
  }

  /** One device of a pod annotation; numbers that do not parse count as what the parser returns. */
  function DecodeDevice(d: string): Option<Device> {
    var items := Split(d, ',');
    if ',' !in d || |items| < 4 then None else Some(Device(items[0], Atoi(items[2]).value, Atoi(items[3]).value))
  }

  function DecodeDevices(ds: seq<string>): seq<Device> {
    if ds == [] then []
    else
      var n := |ds| - 1;
      match DecodeDevice(ds[n])
      case Some(d) => DecodeDevices(ds[..n]) + [d]
      case None => DecodeDevices(ds[..n])
  }

  function DecodeContainers(cs: seq<string>): seq<Device> {
    if cs == [] then [] else DecodeContainers(cs[..|cs| - 1]) + DecodeDevices(Split(cs[|cs| - 1], ':'))
  }

  /** All devices of a pod, container after container. */
  function DecodePodIDs(s: string): seq<Device> {
    if s == "" then [] else DecodeContainers(Split(s, ';'))
  }

  /** An assignment as its writer has it. */
  datatype Assignment = Assignment(uuid: string, kind: string, memory: string, cores: string)

  predicate Plain(s: string) {
    ',' !in s && ':' !in s && ';' !in s
  }

  predicate PlainAssignment(a: Assignment) {
    Plain(a.uuid) && Plain(a.kind) && Plain(a.memory) && Plain(a.cores)
  }

  function Written(a: Assignment): string {
    Join([a.uuid, a.kind, a.memory, a.cores], ',')
  }

  /** Any text is its comma-free fields joined, so this says what every text decodes to. */
  lemma DeviceDecodes(fields: seq<string>)
    requires |fields| > 0 && forall p :: p in fields ==> ',' !in p
    ensures DecodeDevice(Join(fields, ',')) ==
      if |fields| < 4 then None else Some(Device(fields[0], Atoi(fields[2]).value, Atoi(fields[3]).value))
  {
    SplitJoin(fields, ',');
    if |fields| > 1 {
      HasSeparator(fields, ',');
    }
    hide Atoi, Split, Join;
  }

  lemma HasSeparator(parts: seq<string>, sep: char)
    requires |parts| > 1
    ensures sep in Join(parts, sep)
  {
    assert Join(parts, sep) == parts[0] + [sep] + Join(parts[1..], sep);
    assert Join(parts, sep)[|parts[0]|] == sep;
  }

  /** What the scheduler writes for a device reads back as that device. */
  lemma DeviceRoundTrip(a: Assignment)
    requires PlainAssignment(a)
    ensures DecodeDevice(Written(a)) == Some(Device(a.uuid, Atoi(a.memory).value, Atoi(a.cores).value))
    ensures ':' !in Written(a) && ';' !in Written(a)
  {
    var parts := [a.uuid, a.kind, a.memory, a.cores];
    DeviceDecodes(parts);
    JoinMembers(parts, ',', ':');
    JoinMembers(parts, ',', ';');
    hide Atoi, Join, DecodeDevice;
  }

  function WrittenAll(assignments: seq<Assignment>): (parts: seq<string>)
    ensures |parts| == |assignments|
  {
    if assignments == [] then [] else WrittenAll(assignments[..|assignments| - 1]) + [Written(assignments[|assignments| - 1])]
  }

  /** A container: each device followed by a separator. */
  function WrittenContainer(assignments: seq<Assignment>): string {
    Join(WrittenAll(assignments) + [""], ':')
  }

  function WrittenContainers(containers: seq<seq<Assignment>>): (parts: seq<string>)
    ensures |parts| == |containers|
  {
    if containers == [] then []
    else WrittenContainers(containers[..|containers| - 1]) + [WrittenContainer(containers[|containers| - 1])]
  }

  function WrittenPod(containers: seq<seq<Assignment>>): string {
    Join(WrittenContainers(containers), ';')
  }

  function Read(a: Assignment): Device {
    Device(a.uuid, Atoi(a.memory).value, Atoi(a.cores).value)
  }

  function ReadAll(assignments: seq<Assignment>): seq<Device> {
    if assignments == [] then [] else ReadAll(assignments[..|assignments| - 1]) + [Read(assignments[|assignments| - 1])]
  }

  function ReadContainers(containers: seq<seq<Assignment>>): seq<Device> {
    if containers == [] then [] else ReadContainers(containers[..|containers| - 1]) + ReadAll(containers[|containers| - 1])
  }

  lemma {:induction false} WrittenDecodes(assignments: seq<Assignment>)
    requires forall a :: a in assignments ==> PlainAssignment(a)
    ensures DecodeDevices(WrittenAll(assignments)) == ReadAll(assignments)
    ensures forall p :: p in WrittenAll(assignments) ==> ':' !in p && ';' !in p
  {
    if assignments != [] {
      var n := |assignments| - 1;
      assert assignments[n] in assignments;
      WrittenDecodes(assignments[..n]);
      DeviceRoundTrip(assignments[n]);
      hide DecodeDevice, Written, PlainAssignment;
      assert WrittenAll(assignments)[..n] == WrittenAll(assignments[..n]);
    }
  }

  lemma ContainerDecodes(assignments: seq<Assignment>)
    requires forall a :: a in assignments ==> PlainAssignment(a)
    ensures DecodeDevices(Split(WrittenContainer(assignments), ':')) == ReadAll(assignments)
    ensures ';' !in WrittenContainer(assignments)
  {
    var parts := WrittenAll(assignments) + [""];
    WrittenDecodes(assignments);
    SplitJoin(parts, ':');
    JoinMembers(parts, ':', ';');
    hide Split, Join, WrittenAll;
    assert DecodeDevice("").None?;
    assert parts[..|parts| - 1] == WrittenAll(assignments);
  }

  lemma {:induction false} ContainersDecode(containers: seq<seq<Assignment>>)
    requires forall c, a :: c in containers && a in c ==> PlainAssignment(a)
    ensures DecodeContainers(WrittenContainers(containers)) == ReadContainers(containers)
    ensures forall p :: p in WrittenContainers(containers) ==> ';' !in p
  {
    if containers != [] {
      var n := |containers| - 1;
      assert containers[n] in containers;
      assert forall c, a :: c in containers[..n] && a in c ==> c in containers;
      ContainersDecode(containers[..n]);
      ContainerDecodes(containers[n]);
      hide WrittenContainer, Split, DecodeDevices, ReadAll, PlainAssignment;
      assert WrittenContainers(containers)[..n] == WrittenContainers(containers[..n]);
    }
  }

  /** An annotation as its writer has it reads back as all its devices, container after container. */
  lemma PodRoundTrip(containers: seq<seq<Assignment>>)
    requires containers != [] && forall c, a :: c in containers && a in c ==> PlainAssignment(a)
    ensures DecodePodIDs(WrittenPod(containers)) == ReadContainers(containers)
  {
    ContainersDecode(containers);
    SplitJoin(WrittenContainers(containers), ';');
    PodIDsSplit(WrittenPod(containers));
    hide DecodePodIDs, DecodeContainers, ReadContainers, WrittenContainers, Split, Join;
  }

  /** The shortcut for an empty annotation changes nothing. */
  lemma PodIDsSplit(s: string)
    ensures DecodePodIDs(s) == DecodeContainers(Split(s, ';'))
  {
    if s == "" {
      NothingDecodes();
      assert Split("", ';') == [""];
      hide DecodeDevices, Split;
      assert [""][..0] == [];
      assert DecodeContainers([""]) == DecodeContainers([""][..0]) + DecodeDevices(Split("", ':'));
    }
  }

  lemma NothingDecodes()
    ensures DecodeDevices(Split("", ':')) == []
  {
    assert Split("", ':') == [""];
    assert [""][..0] == [];
    assert DecodeDevice("").None?;
    assert DecodeDevices([""]) == DecodeDevices([""][..0]);
  }

  /** A card as its device plugin has it. */
  datatype Registered = Registered(uuid: string, count: string, memory: string, kind: string, health: string, sharing: string)

  /** What a card registers as, if its numbers and its flag parse. */
  function RegisteredCard(index: nat, r: Registered): Option<Card> {
    if Atoi(r.count).ok && Atoi(r.memory).ok && ParseBool(r.health).Some? then
      Some(Card(index, r.uuid, Atoi(r.count).value, Atoi(r.memory).value, r.kind, ParseBool(r.health).value, r.sharing, 0, 0, 0, []))
    else None
  }

  /** The same for entries: fewer than six fields are skipped, and further ones ignored. */
  lemma CardDecodes(index: nat, fields: seq<string>)
    requires |fields| > 0 && forall p :: p in fields ==> ',' !in p
    ensures DecodeCard(index, Join(fields, ',')) ==
      if |fields| < 6 then None
      else RegisteredCard(index, Registered(fields[0], fields[1], fields[2], fields[3], fields[4], fields[5]))
  {
    SplitJoin(fields, ',');
    if |fields| > 1 {
      HasSeparator(fields, ',');
    }
    hide Atoi, ParseBool, Split, Join;
  }

  predicate PlainCard(r: Registered) {
    Plain(r.uuid) && Plain(r.count) && Plain(r.memory) && Plain(r.kind) && Plain(r.health) && Plain(r.sharing)
  }

  function Entry(r: Registered): string {
    Join([r.uuid, r.count, r.memory, r.kind, r.health, r.sharing], ',')
  }

  lemma CardRoundTrip(index: nat, r: Registered)
    requires PlainCard(r)
    ensures DecodeCard(index, Entry(r)) == RegisteredCard(index, r) && ':' !in Entry(r)
  {
    var fields := [r.uuid, r.count, r.memory, r.kind, r.health, r.sharing];
    CardDecodes(index, fields);
    JoinMembers(fields, ',', ':');
    hide RegisteredCard, DecodeCard, Join;
  }

  function Entries(rs: seq<Registered>): (parts: seq<string>)
    ensures |parts| == |rs|
  {
    if rs == [] then [] else Entries(rs[..|rs| - 1]) + [Entry(rs[|rs| - 1])]
  }

  /** A register as its writer has it: each card followed by a separator. */
  function WrittenRegister(rs: seq<Registered>): string {
    Join(Entries(rs) + [""], ':')
  }

  /** The cards that parse, each under its position among all of them. */
  function RegisteredCards(rs: seq<Registered>): seq<Card> {
    if rs == [] then []
    else
      var n := |rs| - 1;
      match RegisteredCard(n, rs[n])
      case Some(c) => RegisteredCards(rs[..n]) + [c]
      case None => RegisteredCards(rs[..n])
  }

  lemma {:induction false} EntriesDecode(rs: seq<Registered>)
    requires forall r :: r in rs ==> PlainCard(r)
    ensures DecodeCards(Entries(rs)) == RegisteredCards(rs)
    ensures forall p :: p in Entries(rs) ==> ':' !in p
  {
    if rs != [] {
      var n := |rs| - 1;
      assert rs[n] in rs;
      EntriesDecode(rs[..n]);
      CardRoundTrip(n, rs[n]);
      hide DecodeCard, Entry, RegisteredCard, PlainCard;
      assert Entries(rs)[..n] == Entries(rs[..n]);
    }
  }

  /** A register as its writer has it reads back as all its cards that parse, in order. */
  lemma RegisterRoundTrip(rs: seq<Registered>)
    requires forall r :: r in rs ==> PlainCard(r)
    ensures DecodeNodeRegister(WrittenRegister(rs)) == RegisteredCards(rs)
  {
    var parts := Entries(rs) + [""];
    EntriesDecode(rs);
    if rs == [] {
      assert WrittenRegister(rs) == "";
    } else {
      HasSeparator(parts, ':');
      SplitJoin(parts, ':');
      hide Split, Join, Entries, DecodeCard, RegisteredCards;
      NoEntry(|rs|);
      assert parts[..|rs|] == Entries(rs);
    }
  }

  lemma NoEntry(index: nat)
    ensures DecodeCard(index, "").None?
  {
  }

  function Itoa(n: nat): (s: string)
    ensures s != ""
  {
    var digit := ['0' + (n % 10) as char];
    if n < 10 then digit else Itoa(n / 10) + digit
  }

  lemma {:induction false} DecimalOfItoa(n: nat)
    ensures Digits(Itoa(n)) && Decimal(Itoa(n)) == n
  {
    var d := '0' + (n % 10) as char;
    if n < 10 {
      assert [d][..0] == "";
      assert Decimal([d]) == Decimal([d][..0]) * 10 + (d as int - '0' as int);
    } else {
      DecimalOfItoa(n / 10);
      var s := Itoa(n / 10);
      assert (s + [d])[..|s|] == s;
    }
  }

  function FlagText(b: bool): string {
    if b then "true" else "false"
  }

  /** Figures and flag written out, with a card's texts around them, read back as that card. */
  lemma CardReadsBack(c: Card)
    requires Plain(c.uuid) && Plain(c.kind) && Plain(c.sharing) && Unused(c)
    requires 0 <= c.number < INT64 && 0 <= c.memory < INT64
    ensures DecodeCard(c.index, Entry(Registered(c.uuid, Itoa(c.number), Itoa(c.memory), c.kind, FlagText(c.health), c.sharing))) == Some(c)
  {
    hide Itoa, Atoi, Decimal, DecodeCard, Entry, ParseBool, Plain;
    var r := Registered(c.uuid, Itoa(c.number), Itoa(c.memory), c.kind, FlagText(c.health), c.sharing);
    NumberIsPlain(c.number);
    NumberIsPlain(c.memory);
    FlagIsPlain(c.health);
    CardRoundTrip(c.index, r);
    AtoiReadsDecimals(c.number);
    AtoiReadsDecimals(c.memory);
    FlagIsRead(r.health);
  }

  lemma NumberIsPlain(n: nat)
    ensures Plain(Itoa(n))
  {
    DecimalOfItoa(n);
  }

  lemma FlagIsPlain(b: bool)
    ensures Plain(FlagText(b))
  {
  }

  /** The accepted spellings of a flag, and no others. */
  lemma FlagIsRead(s: string)
    ensures ParseBool(FlagText(true)) == Some(true) && ParseBool(FlagText(false)) == Some(false)
    ensures ParseBool(s).None? == (s !in ["1", "t", "T", "TRUE", "true", "True", "0", "f", "F", "FALSE", "false", "False"])
    ensures ParseBool(s).Some? ==> ParseBool(s).value == (s[0] in ['1', 't', 'T'])
  {
  }

  /** Decimal forms parse to their number, with either sign and as far as 64 bits go; beyond that they fail. */
  lemma AtoiReadsDecimals(n: nat)
    ensures Atoi(Itoa(n)) == if n < INT64 then Number(n, true) else Number(INT64 - 1, false)
    ensures Atoi("+" + Itoa(n)) == Atoi(Itoa(n))
    ensures Atoi("-" + Itoa(n)) == if n <= INT64 then Number(0 - n, true) else Number(0 - INT64, false)
  {
    DecimalOfItoa(n);
    var s := Itoa(n);
    assert '0' <= s[0] <= '9';
    assert ("-" + s)[1..] == s && ("+" + s)[1..] == s;
  }

  // ---- Admission ----

  datatype Pod = Pod(ns: string, name: string, node: string, ids: string, bindPhase: string, phase: string)

  /** The pod holds devices right now. */
  predicate Holding(p: Pod) {
    && p.node != "" && p.ids != ""
    && (p.bindPhase == "allocating" || p.bindPhase == "success")
    && p.phase != "Succeeded" && p.phase != "Failed"
  }

  /** The devices a pod claims on a node. */
  function Claims(p: Pod, node: string): seq<Device> {
    if Holding(p) && p.node == node then DecodePodIDs(p.ids) else []
  }

  // ---- Use ----

  function FirstWith(cards: seq<Card>, uuid: string): (i: nat)
    ensures i <= |cards|
  {
    if cards == [] || cards[0].uuid == uuid then 0 else 1 + FirstWith(cards[1..], uuid)
  }

  lemma {:induction false} FirstWithIsFirst(cards: seq<Card>, uuid: string)
    ensures var i := FirstWith(cards, uuid);
      (i < |cards| ==> cards[i].uuid == uuid) && forall j :: 0 <= j < i ==> cards[j].uuid != uuid
  {
    if cards != [] && cards[0].uuid != uuid {
      FirstWithIsFirst(cards[1..], uuid);
    }
  }

  function Charged(c: Card, d: Device, ns: string, name: string): Card {
    c.(usedMemory := c.usedMemory + d.memory, usedCores := c.usedCores + d.cores, usedNumber := c.usedNumber + 1,
       pods := c.pods + [Usage(ns, name, d.memory, d.cores)])
  }

  /** The first card with the device's id is charged; a device that is not on the node is dropped. */
  function Use(cards: seq<Card>, d: Device, ns: string, name: string): (r: seq<Card>)
    ensures |r| == |cards|
  {
    var i := FirstWith(cards, d.uuid);
    if i == |cards| then cards else cards[i := Charged(cards[i], d, ns, name)]
  }

  function UseAll(cards: seq<Card>, ds: seq<Device>, ns: string, name: string): (r: seq<Card>)
    ensures |r| == |cards|
  {
    if ds == [] then cards else Use(UseAll(cards, ds[..|ds| - 1], ns, name), ds[|ds| - 1], ns, name)
  }

  /** One node's cards after all pods. */
  function Layered(cards: seq<Card>, pods: seq<Pod>, node: string): (r: seq<Card>)
    ensures |r| == |cards|
  {
    if pods == [] then cards
    else
      var p := pods[|pods| - 1];
      UseAll(Layered(cards, pods[..|pods| - 1], node), Claims(p, node), p.ns, p.name)
  }

  // ---- Sums ----

  function SumBy<T>(s: seq<T>, f: T -> int): int {
    if s == [] then 0 else SumBy(s[..|s| - 1], f) + f(s[|s| - 1])
  }

  lemma {:induction false} SumConcat<T>(a: seq<T>, b: seq<T>, f: T -> int)
    ensures SumBy(a + b, f) == SumBy(a, f) + SumBy(b, f)
  {
    if b == [] {
      assert a + b == a;
    } else {
      SumConcat(a, b[..|b| - 1], f);
      assert (a + b)[..|a + b| - 1] == a + b[..|b| - 1];
    }
  }

  /** A sum does not depend on the order. */
  lemma {:induction false} SumPermutes<T>(a: seq<T>, b: seq<T>, f: T -> int)
    requires multiset(a) == multiset(b)
    ensures SumBy(a, f) == SumBy(b, f)
    decreases |a|
  {
    if a == [] {
      assert |multiset(b)| == |b| == 0;
    } else {
      var n := |a| - 1;
      var x := a[n];
      assert a == a[..n] + [x];
      assert x in multiset(b);
      var k :| 0 <= k < |b| && b[k] == x;
      var left, right := b[..k], b[k + 1..];
      assert b == left + [x] + right;
      Without(a[..n], x, left, right, a, b);
      SumPermutes(a[..n], left + right, f);
      SumConcat(left + [x], right, f);
      SumConcat(left, [x], f);
      SumConcat(left, right, f);
      OneTerm(x, f);
    }
  }

  lemma Without<T>(rest: seq<T>, x: T, left: seq<T>, right: seq<T>, a: seq<T>, b: seq<T>)
    requires a == rest + [x] && b == left + [x] + right && multiset(a) == multiset(b)
    ensures multiset(rest) == multiset(left + right)
  {
    assert multiset(a) == multiset(rest) + multiset{x};
    assert multiset(b) == multiset(left) + multiset{x} + multiset(right);
    assert multiset(left + right) == multiset(left) + multiset(right);
    assert multiset(rest) == multiset(a) - multiset{x};
    assert multiset(left + right) == multiset(b) - multiset{x};
  }

  lemma OneTerm<T>(x: T, f: T -> int)
    ensures SumBy([x], f) == f(x)
  {
    assert [x][..0] == [];
    assert SumBy([x], f) == SumBy([x][..0], f) + f(x);
  }

  /** Changing one element changes the sum by the difference. */
  lemma {:induction false} SumUpdate<T>(s: seq<T>, i: nat, x: T, f: T -> int)
    requires i < |s|
    ensures SumBy(s[i := x], f) == SumBy(s, f) - f(s[i]) + f(x)
  {
    var n := |s| - 1;
    if i < n {
      SumUpdate(s[..n], i, x, f);
      assert s[i := x][..n] == s[..n][i := x];
    } else {
      assert s[i := x][..n] == s[..n];
    }
  }

  function Memory(u: Usage): int { u.memory }
  function Cores(u: Usage): int { u.cores }

  function UsedMemory(c: Card): int { c.usedMemory }
  function UsedNumber(c: Card): int { c.usedNumber }
  function CardMemory(c: Card): int { c.memory }
  function CardNumber(c: Card): int { c.number }

  // ---- Conservation on one node ----

  /** Every card's figures are the sums over its list of pods. */
  predicate Balanced(c: Card) {
    && c.usedMemory == SumBy(c.pods, Memory)
    && c.usedCores == SumBy(c.pods, Cores)
    && c.usedNumber == |c.pods|
  }

  ghost predicate AllBalanced(cards: seq<Card>) {
    forall i :: 0 <= i < |cards| ==> Balanced(cards[i])
  }

  lemma ChargedStaysBalanced(c: Card, d: Device, ns: string, name: string)
    requires Balanced(c)
    ensures Balanced(Charged(c, d, ns, name))
  {
    var u := Usage(ns, name, d.memory, d.cores);
    assert (c.pods + [u])[..|c.pods|] == c.pods;
  }

  lemma UseStaysBalanced(cards: seq<Card>, d: Device, ns: string, name: string)
    requires AllBalanced(cards)
    ensures AllBalanced(Use(cards, d, ns, name))
  {
    var i := FirstWith(cards, d.uuid);
    if i < |cards| {
      ChargedStaysBalanced(cards[i], d, ns, name);
    }
    hide Balanced;
  }

  lemma {:induction false} UseAllStaysBalanced(cards: seq<Card>, ds: seq<Device>, ns: string, name: string)
    requires AllBalanced(cards)
    ensures AllBalanced(UseAll(cards, ds, ns, name))
  {
    if ds != [] {
      UseAllStaysBalanced(cards, ds[..|ds| - 1], ns, name);
      UseStaysBalanced(UseAll(cards, ds[..|ds| - 1], ns, name), ds[|ds| - 1], ns, name);
    }
  }

  /** Whatever the pods, each card's memory, cores and slots are the sums over the pods listed on it. */
  lemma {:induction false} LayeredIsBalanced(cards: seq<Card>, pods: seq<Pod>, node: string)
    requires AllBalanced(cards)
    ensures AllBalanced(Layered(cards, pods, node))
  {
    if pods != [] {
      var p := pods[|pods| - 1];
      LayeredIsBalanced(cards, pods[..|pods| - 1], node);
      UseAllStaysBalanced(Layered(cards, pods[..|pods| - 1], node), Claims(p, node), p.ns, p.name);
    }
  }

  // ---- The figures, without the order ----

  function MemoryOn(uuid: string): Device -> int { (d: Device) => if d.uuid == uuid then d.memory else 0 }
  function CoresOn(uuid: string): Device -> int { (d: Device) => if d.uuid == uuid then d.cores else 0 }
  function SlotsOn(uuid: string): Device -> int { (d: Device) => if d.uuid == uuid then 1 else 0 }

  function Claimed(node: string, f: Device -> int): Pod -> int {
    (p: Pod) => SumBy(Claims(p, node), f)
  }

  /** Only the first card with an id is ever charged. */
  predicate Chargeable(cards: seq<Card>, i: nat)
    requires i < |cards|
  {
    FirstWith(cards, cards[i].uuid) == i
  }

  /** Only the figures differ. */
  ghost predicate SameCards(a: seq<Card>, b: seq<Card>) {
    |a| == |b| && forall i :: 0 <= i < |a| ==>
      a[i].uuid == b[i].uuid && a[i].index == b[i].index && a[i].number == b[i].number && a[i].memory == b[i].memory
  }

  lemma {:induction false} SameFirst(a: seq<Card>, b: seq<Card>, uuid: string)
    requires SameCards(a, b)
    ensures FirstWith(a, uuid) == FirstWith(b, uuid)
  {
    if a != [] && a[0].uuid != uuid {
      SameFirst(a[1..], b[1..], uuid);
    }
  }

  /** The three figures of a card. */
  datatype Figures = Figures(memory: int, cores: int, slots: int)

  function FiguresOf(c: Card): Figures {
    Figures(c.usedMemory, c.usedCores, c.usedNumber)
  }

  function Plus(a: Figures, b: Figures): Figures {
    Figures(a.memory + b.memory, a.cores + b.cores, a.slots + b.slots)
  }

  const ZERO := Figures(0, 0, 0)

  function DeviceFigures(ds: seq<Device>, uuid: string): Figures {
    Figures(SumBy(ds, MemoryOn(uuid)), SumBy(ds, CoresOn(uuid)), SumBy(ds, SlotsOn(uuid)))
  }

  function PodFigures(pods: seq<Pod>, node: string, uuid: string): Figures {
    Figures(
      SumBy(pods, Claimed(node, MemoryOn(uuid))),
      SumBy(pods, Claimed(node, CoresOn(uuid))),
      SumBy(pods, Claimed(node, SlotsOn(uuid))))
  }

  /** One device charges card i exactly when i is the first card with its id. */
  lemma UseFigures(cards: seq<Card>, before: seq<Card>, d: Device, ns: string, name: string, i: nat)
    requires SameCards(cards, before) && i < |cards|
    ensures SameCards(cards, Use(before, d, ns, name))
    ensures FiguresOf(Use(before, d, ns, name)[i]) ==
      if Chargeable(cards, i) && d.uuid == cards[i].uuid then Plus(FiguresOf(before[i]), Figures(d.memory, d.cores, 1))
      else FiguresOf(before[i])
  {
    SameFirst(cards, before, d.uuid);
    FirstWithIsFirst(cards, d.uuid);
    hide FirstWith;
  }

  lemma {:induction false} UseAllFigures(cards: seq<Card>, ds: seq<Device>, ns: string, name: string, i: nat)
    requires i < |cards|
    ensures SameCards(cards, UseAll(cards, ds, ns, name))
    ensures FiguresOf(UseAll(cards, ds, ns, name)[i]) ==
      if Chargeable(cards, i) then Plus(FiguresOf(cards[i]), DeviceFigures(ds, cards[i].uuid)) else FiguresOf(cards[i])
  {
    hide Chargeable;
    if ds != [] {
      var d := ds[|ds| - 1];
      var before := UseAll(cards, ds[..|ds| - 1], ns, name);
      UseAllFigures(cards, ds[..|ds| - 1], ns, name, i);
      UseFigures(cards, before, d, ns, name, i);
      hide Use, SameCards, FiguresOf;
    }
  }

  /** Each card ends with the sums over all pods on its node, which no reordering of the pods can change. */
  lemma {:induction false} LayeredFigures(cards: seq<Card>, pods: seq<Pod>, node: string, i: nat)
    requires i < |cards|
    ensures SameCards(cards, Layered(cards, pods, node))
    ensures FiguresOf(Layered(cards, pods, node)[i]) ==
      if Chargeable(cards, i) then Plus(FiguresOf(cards[i]), PodFigures(pods, node, cards[i].uuid)) else FiguresOf(cards[i])
  {
    if pods != [] {
      var p := pods[|pods| - 1];
      var before := Layered(cards, pods[..|pods| - 1], node);
      LayeredFigures(cards, pods[..|pods| - 1], node, i);
      UseAllFigures(before, Claims(p, node), p.ns, p.name, i);
      SameFirst(cards, before, cards[i].uuid);
    }
  }

  /** What a pod's devices enter on the card with this id. */
  function ListedDevices(ds: seq<Device>, uuid: string, ns: string, name: string): seq<Usage> {
    if ds == [] then []
    else
      var d := ds[|ds| - 1];
      ListedDevices(ds[..|ds| - 1], uuid, ns, name) + if d.uuid == uuid then [Usage(ns, name, d.memory, d.cores)] else []
  }

  function ListedPods(pods: seq<Pod>, node: string, uuid: string): seq<Usage> {
    if pods == [] then []
    else
      var p := pods[|pods| - 1];
      ListedPods(pods[..|pods| - 1], node, uuid) + ListedDevices(Claims(p, node), uuid, p.ns, p.name)
  }

  lemma UseLists(cards: seq<Card>, before: seq<Card>, d: Device, ns: string, name: string, i: nat)
    requires SameCards(cards, before) && i < |cards|
    ensures Use(before, d, ns, name)[i].pods == before[i].pods +
      if Chargeable(cards, i) && d.uuid == cards[i].uuid then [Usage(ns, name, d.memory, d.cores)] else []
  {
    SameFirst(cards, before, d.uuid);
    FirstWithIsFirst(cards, d.uuid);
    hide FirstWith;
    assert before[i].pods + [] == before[i].pods;
  }

  lemma {:induction false} UseAllLists(cards: seq<Card>, start: seq<Card>, ds: seq<Device>, ns: string, name: string, i: nat)
    requires SameCards(cards, start) && i < |cards|
    ensures SameCards(cards, UseAll(start, ds, ns, name))
    ensures UseAll(start, ds, ns, name)[i].pods == start[i].pods +
      if Chargeable(cards, i) then ListedDevices(ds, cards[i].uuid, ns, name) else []
  {
    hide Chargeable;
    if ds == [] {
      assert start[i].pods + [] == start[i].pods;
    } else {
      var d := ds[|ds| - 1];
      var before := UseAll(start, ds[..|ds| - 1], ns, name);
      UseAllLists(cards, start, ds[..|ds| - 1], ns, name, i);
      UseLists(cards, before, d, ns, name, i);
      UseFigures(cards, before, d, ns, name, i);
      hide Use, SameCards;
    }
  }

  /** Each card lists who holds it: in order, one line for every device of every pod on the node, if it is the first card with its id. */
  lemma {:induction false} LayeredLists(cards: seq<Card>, pods: seq<Pod>, node: string, i: nat)
    requires i < |cards|
    ensures Layered(cards, pods, node)[i].pods == cards[i].pods +
      if Chargeable(cards, i) then ListedPods(pods, node, cards[i].uuid) else []
  {
    if pods == [] {
      assert cards[i].pods + [] == cards[i].pods;
    } else {
      var p := pods[|pods| - 1];
      var before := Layered(cards, pods[..|pods| - 1], node);
      LayeredLists(cards, pods[..|pods| - 1], node, i);
      LayeredFigures(cards, pods[..|pods| - 1], node, i);
      UseAllLists(cards, before, Claims(p, node), p.ns, p.name, i);
      var uuid := cards[i].uuid;
      Regroup(cards[i].pods, ListedPods(pods[..|pods| - 1], node, uuid), ListedDevices(Claims(p, node), uuid, p.ns, p.name));
      hide UseAll, SameCards, Claims, Chargeable, FiguresOf, ListedDevices, PodFigures;
    }
  }

  lemma OrderDoesNotMatter(cards: seq<Card>, pods: seq<Pod>, others: seq<Pod>, node: string, i: nat)
    requires i < |cards| && multiset(pods) == multiset(others)
    ensures FiguresOf(Layered(cards, pods, node)[i]) == FiguresOf(Layered(cards, others, node)[i])
  {
    var uuid := cards[i].uuid;
    LayeredFigures(cards, pods, node, i);
    LayeredFigures(cards, others, node, i);
    SumPermutes(pods, others, Claimed(node, MemoryOn(uuid)));
    SumPermutes(pods, others, Claimed(node, CoresOn(uuid)));
    SumPermutes(pods, others, Claimed(node, SlotsOn(uuid)));
  }

  // ---- What is used is what is claimed ----

  function One(c: Card): int { 1 }
  function OneSlot(d: Device): int { 1 }
  function DeviceMemory(d: Device): int { d.memory }

  /** The figure f of a card goes up by the share w of a device that is charged to it. */
  ghost predicate Counts(f: Card -> int, w: Device -> int) {
    forall c: Card, d: Device, ns: string, name: string :: f(Charged(c, d, ns, name)) == f(c) + w(d)
  }

  /** A device's share, if it is on a node with these cards. */
  function OnNode(cards: seq<Card>, w: Device -> int): Device -> int {
    (d: Device) => if FirstWith(cards, d.uuid) < |cards| then w(d) else 0
  }

  lemma {:induction false} UseAllAdds(cards: seq<Card>, ds: seq<Device>, ns: string, name: string, f: Card -> int, w: Device -> int)
    requires Counts(f, w)
    ensures SumBy(UseAll(cards, ds, ns, name), f) == SumBy(cards, f) + SumBy(ds, OnNode(cards, w))
    ensures SameCards(cards, UseAll(cards, ds, ns, name))
  {
    if ds != [] {
      var n := |ds| - 1;
      var d := ds[n];
      UseAllAdds(cards, ds[..n], ns, name, f, w);
      var before := UseAll(cards, ds[..n], ns, name);
      SameFirst(cards, before, d.uuid);
      var i := FirstWith(before, d.uuid);
      if i < |before| {
        SumUpdate(before, i, Charged(before[i], d, ns, name), f);
      }
    }
  }

  /** What pods add on a node is the share of its devices among those that they claim. */
  lemma {:induction false} LayeredAdds(cards: seq<Card>, pods: seq<Pod>, node: string, f: Card -> int, w: Device -> int)
    requires Counts(f, w)
    ensures SumBy(Layered(cards, pods, node), f) == SumBy(cards, f) + SumBy(pods, Claimed(node, OnNode(cards, w)))
    ensures SameCards(cards, Layered(cards, pods, node))
  {
    if pods != [] {
      var n := |pods| - 1;
      var p := pods[n];
      LayeredAdds(cards, pods[..n], node, f, w);
      var before := Layered(cards, pods[..n], node);
      UseAllAdds(before, Claims(p, node), p.ns, p.name, f, w);
      SameOnNode(Claims(p, node), cards, before, w);
      hide Counts;
    }
  }

  lemma {:induction false} SameOnNode(ds: seq<Device>, a: seq<Card>, b: seq<Card>, w: Device -> int)
    requires SameCards(a, b)
    ensures SumBy(ds, OnNode(a, w)) == SumBy(ds, OnNode(b, w))
  {
    if ds != [] {
      SameOnNode(ds[..|ds| - 1], a, b, w);
      SameFirst(a, b, ds[|ds| - 1].uuid);
    }
  }

  lemma {:induction false} SumAdds<T>(s: seq<T>, f: T -> int, g: T -> int, h: T -> int)
    requires forall x :: x in s ==> f(x) == g(x) + h(x)
    ensures SumBy(s, f) == SumBy(s, g) + SumBy(s, h)
  {
    if s != [] {
      assert s[|s| - 1] in s;
      SumAdds(s[..|s| - 1], f, g, h);
    }
  }

  /** The share of a pod's devices that are on its node, if that is one of these. */
  function HitsIn(inventory: map<string, seq<Card>>, names: seq<string>, w: Device -> int): Pod -> int {
    (p: Pod) => if p.node in names && p.node in inventory then SumBy(Claims(p, p.node), OnNode(inventory[p.node], w)) else 0
  }

  /** A figure of a node's cards after all pods, added up. */
  function NodeSum(inventory: map<string, seq<Card>>, pods: seq<Pod>, f: Card -> int): string -> int {
    (n: string) => if n in inventory then SumBy(Layered(inventory[n], pods, n), f) else 0
  }

  datatype Totals = Totals(cards: int, memory: int, usedMemory: int, slots: int, usedSlots: int)

  /** The figures of the cluster. */
  function ClusterTotals(inventory: map<string, seq<Card>>, pods: seq<Pod>, names: seq<string>): Totals {
    Totals(
      SumBy(names, NodeSum(inventory, pods, One)),
      SumBy(names, NodeSum(inventory, pods, CardMemory)),
      SumBy(names, NodeSum(inventory, pods, UsedMemory)),
      SumBy(names, NodeSum(inventory, pods, CardNumber)),
      SumBy(names, NodeSum(inventory, pods, UsedNumber)))
  }

  lemma {:induction false} SumAgrees<S, T>(a: seq<S>, b: seq<T>, f: S -> int, g: T -> int)
    requires |a| == |b| && forall i :: 0 <= i < |a| ==> f(a[i]) == g(b[i])
    ensures SumBy(a, f) == SumBy(b, g)
  {
    if a != [] {
      SumAgrees(a[..|a| - 1], b[..|b| - 1], f, g);
    }
  }

  /** The figures that are summed: each depends on the card's own data and its three figures. */
  ghost predicate Summed(f: Card -> int) {
    forall a: Card, b: Card :: a.number == b.number && a.memory == b.memory && FiguresOf(a) == FiguresOf(b) ==> f(a) == f(b)
  }

  lemma NodeOrderDoesNotMatter(cards: seq<Card>, pods: seq<Pod>, others: seq<Pod>, node: string, f: Card -> int)
    requires multiset(pods) == multiset(others) && Summed(f)
    ensures SumBy(Layered(cards, pods, node), f) == SumBy(Layered(cards, others, node), f)
  {
    var a, b := Layered(cards, pods, node), Layered(cards, others, node);
    forall i | 0 <= i < |cards|
      ensures f(a[i]) == f(b[i])
    {
      OrderDoesNotMatter(cards, pods, others, node, i);
      LayeredFigures(cards, pods, node, i);
      LayeredFigures(cards, others, node, i);
    }
    hide Layered;
    SumAgrees(a, b, f, f);
  }

  lemma NodesOrderDoesNotMatter(
      inventory: map<string, seq<Card>>, pods: seq<Pod>, others: seq<Pod>, names: seq<string>, listed: seq<string>, f: Card -> int)
    requires multiset(pods) == multiset(others) && multiset(names) == multiset(listed) && Summed(f)
    ensures SumBy(names, NodeSum(inventory, pods, f)) == SumBy(listed, NodeSum(inventory, others, f))
  {
    forall n | n in inventory
      ensures NodeSum(inventory, pods, f)(n) == NodeSum(inventory, others, f)(n)
    {
      NodeOrderDoesNotMatter(inventory[n], pods, others, n, f);
    }
    SumAgrees(names, names, NodeSum(inventory, pods, f), NodeSum(inventory, others, f));
    SumPermutes(names, listed, NodeSum(inventory, others, f));
  }

  /** No figure of the cluster depends on the order of the pods, or on that of the nodes. */
  lemma ClusterOrderDoesNotMatter(
      inventory: map<string, seq<Card>>, pods: seq<Pod>, others: seq<Pod>, names: seq<string>, listed: seq<string>)
    requires multiset(pods) == multiset(others) && multiset(names) == multiset(listed)
    ensures ClusterTotals(inventory, pods, names) == ClusterTotals(inventory, others, listed)
  {
    NodesOrderDoesNotMatter(inventory, pods, others, names, listed, One);
    NodesOrderDoesNotMatter(inventory, pods, others, names, listed, CardMemory);
    NodesOrderDoesNotMatter(inventory, pods, others, names, listed, UsedMemory);
    NodesOrderDoesNotMatter(inventory, pods, others, names, listed, CardNumber);
    NodesOrderDoesNotMatter(inventory, pods, others, names, listed, UsedNumber);
  }

  ghost predicate Distinct(names: seq<string>) {
    forall i, j :: 0 <= i < j < |names| ==> names[i] != names[j]
  }

  lemma NothingClaimedElsewhere(
      pods: seq<Pod>, inventory: map<string, seq<Card>>, names: seq<string>, n: string, w: Device -> int)
    requires n in inventory && n !in names
    ensures SumBy(pods, HitsIn(inventory, names + [n], w))
      == SumBy(pods, HitsIn(inventory, names, w)) + SumBy(pods, Claimed(n, OnNode(inventory[n], w)))
  {
    var f, g, h := HitsIn(inventory, names + [n], w), HitsIn(inventory, names, w), Claimed(n, OnNode(inventory[n], w));
    forall p | p in pods
      ensures f(p) == g(p) + h(p)
    {
      if p.node != n {
        assert Claims(p, n) == [];
        assert h(p) == 0;
        assert p.node in names + [n] <==> p.node in names;
      } else {
        assert p.node in names + [n];
      }
    }
    SumAdds(pods, f, g, h);
  }

  lemma {:induction false} FreshIsUnused(cards: seq<Card>, bound: nat)
    requires Fresh(cards, bound)
    ensures SumBy(cards, UsedNumber) == 0 && SumBy(cards, UsedMemory) == 0 && AllBalanced(cards)
  {
    if cards != [] {
      FreshIsUnused(cards[..|cards| - 1], bound);
    }
  }

  /**
   Over the whole cluster, what is used is the share of the decoded devices of
   admitted pods that are on their pod's node, however the nodes are listed.
   */
  lemma {:induction false} UsedIsClaimed(
      inventory: map<string, seq<Card>>, pods: seq<Pod>, names: seq<string>, f: Card -> int, w: Device -> int)
    requires Counts(f, w) && Distinct(names) && forall n :: n in names ==> Idle(inventory, n, f)
    ensures SumBy(names, NodeSum(inventory, pods, f)) == SumBy(pods, HitsIn(inventory, names, w))
  {
    hide Counts, NodeSum, HitsIn, Claimed, OnNode;
    if names == [] {
      NoHits(inventory, pods, w);
    } else {
      var k := |names| - 1;
      var n := names[k];
      assert n in names && Idle(inventory, n, f);
      assert forall m :: m in names[..k] ==> m in names;
      UsedIsClaimed(inventory, pods, names[..k], f, w);
      UsedOnOne(inventory, pods, n, f, w);
      NothingClaimedElsewhere(pods, inventory, names[..k], n, w);
      assert names[..k] + [n] == names;
    }
  }

  /** Every device takes a slot and its memory. */
  lemma SlotsAndMemoryCount()
    ensures Counts(UsedNumber, OneSlot) && Counts(UsedMemory, DeviceMemory)
  {
  }

  /** Nothing is charged to the node yet. */
  ghost predicate Idle(inventory: map<string, seq<Card>>, n: string, f: Card -> int) {
    n in inventory && SumBy(inventory[n], f) == 0
  }

  lemma UsedOnOne(inventory: map<string, seq<Card>>, pods: seq<Pod>, n: string, f: Card -> int, w: Device -> int)
    requires Counts(f, w) && Idle(inventory, n, f)
    ensures NodeSum(inventory, pods, f)(n) == SumBy(pods, Claimed(n, OnNode(inventory[n], w)))
  {
    LayeredAdds(inventory[n], pods, n, f, w);
  }

  lemma {:induction false} NoHits(inventory: map<string, seq<Card>>, pods: seq<Pod>, w: Device -> int)
    ensures SumBy(pods, HitsIn(inventory, [], w)) == 0
  {
    if pods != [] {
      NoHits(inventory, pods[..|pods| - 1], w);
    }
  }

  // ---- The tracker ----

  datatype NodeInfo = NodeInfo(name: string, register: string)

  function Inventory(list: seq<NodeInfo>): map<string, seq<Card>> {
    if list == [] then map[]
    else
      var last := list[|list| - 1];
      var cards := DecodeNodeRegister(last.register);
      var before := Inventory(list[..|list| - 1]);
      if cards == [] then before else before[last.name := cards]
  }

  /** The k-th node object registers at least one card under this name. */
  predicate Registers(list: seq<NodeInfo>, k: nat, n: string)
    requires k < |list|
  {
    list[k].name == n && DecodeNodeRegister(list[k].register) != []
  }

  /** The last of its registers that yields cards. */
  ghost predicate LastRegisters(list: seq<NodeInfo>, k: nat, n: string) {
    k < |list| && Registers(list, k, n) && forall j :: k < j < |list| ==> !Registers(list, j, n)
  }

  /** A node is in the inventory exactly when it registers a card, with the cards of its last register that does. */
  lemma {:induction false} InventoryIsExact(list: seq<NodeInfo>, n: string)
    ensures n !in Inventory(list) ==> forall k :: 0 <= k < |list| ==> !Registers(list, k, n)
    ensures n in Inventory(list) ==>
      exists k: nat :: LastRegisters(list, k, n) && Inventory(list)[n] == DecodeNodeRegister(list[k].register)
  {
    hide DecodeNodeRegister;
    if list != [] {
      var m := |list| - 1;
      InventoryIsExact(list[..m], n);
      assert forall k :: 0 <= k < m ==> Registers(list[..m], k, n) == Registers(list, k, n);
      if Registers(list, m, n) {
        assert LastRegisters(list, m, n);
      } else if n in Inventory(list) {
        assert Inventory(list)[n] == Inventory(list[..m])[n];
        var k: nat :| LastRegisters(list[..m], k, n) && Inventory(list[..m])[n] == DecodeNodeRegister(list[..m][k].register);
        assert LastRegisters(list, k, n);
      }
    }
  }

  lemma {:induction false} InventoriesAreFresh(list: seq<NodeInfo>)
    ensures forall n :: n in Inventory(list) ==> exists b :: Fresh(Inventory(list)[n], b)
  {
    if list != [] {
      var last := list[|list| - 1];
      InventoriesAreFresh(list[..|list| - 1]);
      if ':' in last.register {
        InventoryIsFresh(Split(last.register, ':'));
        assert Fresh(DecodeNodeRegister(last.register), |Split(last.register, ':')|);
      }
    }
  }

  datatype NodeView = NodeView(
    name: string, healthy: bool, cards: seq<Card>, totalMemory: int, usedMemory: int, totalNumber: int, usedNumber: int)

  function NodeTotalMemory(n: NodeView): int { n.totalMemory }
  function NodeUsedMemory(n: NodeView): int { n.usedMemory }
  function NodeTotalNumber(n: NodeView): int { n.totalNumber }
  function NodeUsedNumber(n: NodeView): int { n.usedNumber }
  function NodeCards(n: NodeView): int { |n.cards| }

  datatype Snapshot = Snapshot(
    nodes: seq<NodeView>, totalCards: int, totalMemory: int, usedMemory: int, totalSlots: int, usedSlots: int)

  ghost predicate NodeAdds(n: NodeView) {
    && n.totalMemory == SumBy(n.cards, CardMemory) && n.usedMemory == SumBy(n.cards, UsedMemory)
    && n.totalNumber == SumBy(n.cards, CardNumber) && n.usedNumber == SumBy(n.cards, UsedNumber)
    && n.healthy == (forall c :: c in n.cards ==> c.health)
  }

  ghost predicate SnapshotAdds(s: Snapshot) {
    && (forall i :: 0 <= i < |s.nodes| ==> NodeAdds(s.nodes[i]))
    && s.totalCards == SumBy(s.nodes, NodeCards)
    && s.totalMemory == SumBy(s.nodes, NodeTotalMemory) && s.usedMemory == SumBy(s.nodes, NodeUsedMemory)
    && s.totalSlots == SumBy(s.nodes, NodeTotalNumber) && s.usedSlots == SumBy(s.nodes, NodeUsedNumber)
  }

  lemma SumStep<T>(s: seq<T>, i: nat, f: T -> int)
    requires i < |s|
    ensures SumBy(s[..i + 1], f) == SumBy(s[..i], f) + f(s[i])
  {
    assert s[..i + 1][..i] == s[..i];
  }

  lemma UseAllStep(cards: seq<Card>, ds: seq<Device>, k: nat, ns: string, name: string)
    requires k < |ds|
    ensures UseAll(cards, ds[..k + 1], ns, name) == Use(UseAll(cards, ds[..k], ns, name), ds[k], ns, name)
  {
    assert ds[..k + 1][..k] == ds[..k];
  }

  lemma NothingUsed(nodes: map<string, seq<Card>>, p: Pod)
    ensures forall n :: n in nodes ==> UseAll(nodes[n], [], p.ns, p.name) == nodes[n]
  {
  }

  class Tracker {
    var nodes: map<string, seq<Card>>

    constructor ()
      ensures nodes == map[]
    {
      nodes := map[];
    }

    /** Nodes that register no card are left out. */
    method BuildInventory(list: seq<NodeInfo>)
      modifies this
      ensures nodes == Inventory(list)
    {
      nodes := map[];
      assert list[..0] == [];
      for k := 0 to |list|
        invariant nodes == Inventory(list[..k])
      {
        assert list[..k + 1][..k] == list[..k];
        var cards := DecodeNodeRegister(list[k].register);
        if |cards| > 0 {
          nodes := nodes[list[k].name := cards];
        }
      }
      assert list[..|list|] == list;
    }

    method ApplyPodUsage(node: string, d: Device, ns: string, name: string) returns (found: bool)
      requires node in nodes
      modifies this
      ensures nodes == old(nodes)[node := Use(old(nodes)[node], d, ns, name)]
      ensures found == (FirstWith(old(nodes)[node], d.uuid) < |old(nodes)[node]|)
    {
      var cards := nodes[node];
      FirstWithIsFirst(cards, d.uuid);
      for i := 0 to |cards|
        invariant forall j :: 0 <= j < i ==> cards[j].uuid != d.uuid
        invariant nodes == old(nodes)
      {
        if cards[i].uuid == d.uuid {
          var c := cards[i];
          c := c.(usedMemory := c.usedMemory + d.memory);
          c := c.(usedCores := c.usedCores + d.cores);
          c := c.(usedNumber := c.usedNumber + 1);
          c := c.(pods := c.pods + [Usage(ns, name, d.memory, d.cores)]);
          nodes := nodes[node := cards[i := c]];
          return true;
        }
      }
      found := false;
      assert nodes == old(nodes)[node := cards];
    }

    method ApplyDevices(node: string, ds: seq<Device>, ns: string, name: string)
      requires node in nodes
      modifies this
      ensures nodes == old(nodes)[node := UseAll(old(nodes)[node], ds, ns, name)]
    {
      ghost var before := nodes;
      assert ds[..0] == [] && before[node := before[node]] == before;
      for k := 0 to |ds|
        invariant nodes == before[node := UseAll(before[node], ds[..k], ns, name)]
      {
        UseAllStep(before[node], ds, k, ns, name);
        hide Use, UseAll;
        var _ := ApplyPodUsage(node, ds[k], ns, name);
      }
      assert ds[..|ds|] == ds;
    }

    method ApplyPod(p: Pod)
      modifies this
      ensures nodes.Keys == old(nodes).Keys
      ensures forall n :: n in nodes ==> nodes[n] == UseAll(old(nodes)[n], Claims(p, n), p.ns, p.name)
      ensures forall n :: n in nodes ==>
        nodes[n] ==
          if && n == p.node && p.node != "" && p.ids != ""
             && p.bindPhase in ["allocating", "success"] && p.phase !in ["Succeeded", "Failed"]
          then UseAll(old(nodes)[n], DecodePodIDs(p.ids), p.ns, p.name)
          else old(nodes)[n]
    {
      NothingUsed(nodes, p);
      hide UseAll, DecodePodIDs;
      if p.node == "" || p.node !in nodes || p.ids == "" {
        return;
      }
      if p.bindPhase != "allocating" && p.bindPhase != "success" {
        return;
      }
      if p.phase == "Succeeded" || p.phase == "Failed" {
        return;
      }
      ApplyDevices(p.node, DecodePodIDs(p.ids), p.ns, p.name);
    }

    /** Every pod's assignments are layered on the cards of its node. */
    method Layer(pods: seq<Pod>)
      modifies this
      ensures nodes.Keys == old(nodes).Keys
      ensures forall n :: n in nodes ==> nodes[n] == Layered(old(nodes)[n], pods, n)
    {
      assert pods[..0] == [];
      for k := 0 to |pods|
        invariant nodes.Keys == old(nodes).Keys
        invariant forall n :: n in nodes ==> nodes[n] == Layered(old(nodes)[n], pods[..k], n)
      {
        assert pods[..k + 1][..k] == pods[..k];
        ApplyPod(pods[k]);
      }
      assert pods[..|pods|] == pods;
    }

    method View(name: string) returns (v: NodeView)
      requires name in nodes
      ensures NodeAdds(v) && v.name == name && v.cards == nodes[name]
    {
      var cards := nodes[name];
      var totalMemory, totalNumber, usedMemory, usedNumber, healthy := 0, 0, 0, 0, true;
      for i := 0 to |cards|
        invariant totalMemory == SumBy(cards[..i], CardMemory) && totalNumber == SumBy(cards[..i], CardNumber)
        invariant usedMemory == SumBy(cards[..i], UsedMemory) && usedNumber == SumBy(cards[..i], UsedNumber)
        invariant healthy == (forall k :: 0 <= k < i ==> cards[k].health)
      {
        SumStep(cards, i, CardMemory);
        SumStep(cards, i, CardNumber);
        SumStep(cards, i, UsedMemory);
        SumStep(cards, i, UsedNumber);
        totalMemory, totalNumber := totalMemory + cards[i].memory, totalNumber + cards[i].number;
        usedMemory, usedNumber := usedMemory + cards[i].usedMemory, usedNumber + cards[i].usedNumber;
        healthy := healthy && cards[i].health;
      }
      assert cards[..|cards|] == cards;
      v := NodeView(name, healthy, cards, totalMemory, usedMemory, totalNumber, usedNumber);
    }

    /** Node figures are the sums over their cards, and cluster figures the sums over the nodes. */
    method RollUp(names: seq<string>) returns (s: Snapshot)
      requires forall n :: n in names ==> n in nodes
      ensures SnapshotAdds(s) && |s.nodes| == |names|
      ensures forall i :: 0 <= i < |names| ==> s.nodes[i].name == names[i] && s.nodes[i].cards == nodes[names[i]]
    {
      s := Snapshot([], 0, 0, 0, 0, 0);
      for k := 0 to |names|
        invariant SnapshotAdds(s) && |s.nodes| == k
        invariant forall i :: 0 <= i < k ==> s.nodes[i].name == names[i] && s.nodes[i].cards == nodes[names[i]]
      {
        assert names[k] in names;
        var v := View(names[k]);
        ghost var before := s;
        s := Snapshot(s.nodes + [v], s.totalCards + |v.cards|, s.totalMemory + v.totalMemory, s.usedMemory + v.usedMemory,
          s.totalSlots + v.totalNumber, s.usedSlots + v.usedNumber);
        OneMore(before, v, s);
      }
    }

    /**
     A whole sweep: inventory, assignments, sums. Each card is balanced, and the
     used slots and memory are those of the devices that admitted pods hold there.
     */
    method SnapshotLive(list: seq<NodeInfo>, pods: seq<Pod>, names: seq<string>) returns (s: Snapshot)
      requires Distinct(names) && forall n :: n in names <==> n in Inventory(list)
      modifies this
      ensures SnapshotAdds(s)
      ensures forall i :: 0 <= i < |s.nodes| ==> AllBalanced(s.nodes[i].cards)
      ensures TotalsOf(s) == ClusterTotals(Inventory(list), pods, names)
      ensures s.usedSlots == SumBy(pods, HitsIn(Inventory(list), names, OneSlot))
      ensures s.usedMemory == SumBy(pods, HitsIn(Inventory(list), names, DeviceMemory))
    {
      BuildInventory(list);
      ghost var inventory := nodes;
      InventoriesAreFresh(list);
      Layer(pods);
      s := RollUp(names);
      forall i | 0 <= i < |s.nodes|
        ensures AllBalanced(s.nodes[i].cards)
      {
        assert names[i] in names;
        var bound :| Fresh(inventory[names[i]], bound);
        FreshIsUnused(inventory[names[i]], bound);
        LayeredIsBalanced(inventory[names[i]], pods, names[i]);
      }
      forall n | n in names
        ensures Idle(inventory, n, UsedNumber) && Idle(inventory, n, UsedMemory)
      {
        var bound :| Fresh(inventory[n], bound);
        FreshIsUnused(inventory[n], bound);
      }
      SlotsAndMemoryCount();
      UsedIsClaimed(inventory, pods, names, UsedNumber, OneSlot);
      UsedIsClaimed(inventory, pods, names, UsedMemory, DeviceMemory);
      TotalsAreTheClusters(s, names, inventory, pods);
    }
  }

  /** A cluster of one card has that card's figures. */
  lemma OneCardAddsUp(s: Snapshot, c: Card)
    requires SnapshotAdds(s) && |s.nodes| == 1 && s.nodes[0].cards == [c]
    ensures TotalsOf(s) == Totals(1, c.memory, c.usedMemory, c.number, c.usedNumber) && s.nodes[0].healthy == c.health
  {
    var n := s.nodes[0];
    assert NodeAdds(n);
    assert s.nodes == [n] && c in n.cards;
    hide SumBy;
    OneTerm(n, NodeCards);
    OneTerm(n, NodeTotalMemory);
    OneTerm(n, NodeUsedMemory);
    OneTerm(n, NodeTotalNumber);
    OneTerm(n, NodeUsedNumber);
    OneTerm(c, CardMemory);
    OneTerm(c, UsedMemory);
    OneTerm(c, CardNumber);
    OneTerm(c, UsedNumber);
  }

  lemma OneMore(before: Snapshot, v: NodeView, s: Snapshot)
    requires SnapshotAdds(before) && NodeAdds(v)
    requires s == Snapshot(before.nodes + [v], before.totalCards + |v.cards|, before.totalMemory + v.totalMemory,
      before.usedMemory + v.usedMemory, before.totalSlots + v.totalNumber, before.usedSlots + v.usedNumber)
    ensures SnapshotAdds(s)
  {
    hide NodeAdds;
    assert s.nodes[..|before.nodes|] == before.nodes;
  }

  lemma PerNode(
      names: seq<string>, views: seq<NodeView>, inventory: map<string, seq<Card>>, pods: seq<Pod>,
      g: NodeView -> int, f: Card -> int)
    requires |names| == |views| && forall n :: n in names ==> n in inventory
    requires forall i :: 0 <= i < |names| ==> views[i].cards == Layered(inventory[names[i]], pods, names[i])
    requires forall i :: 0 <= i < |names| ==> g(views[i]) == SumBy(views[i].cards, f)
    ensures SumBy(views, g) == SumBy(names, NodeSum(inventory, pods, f))
  {
    forall i | 0 <= i < |names|
      ensures g(views[i]) == NodeSum(inventory, pods, f)(names[i])
    {
      assert names[i] in names;
    }
    SumAgrees(views, names, g, NodeSum(inventory, pods, f));
  }

  lemma {:induction false} CountIsSum(cards: seq<Card>)
    ensures SumBy(cards, One) == |cards|
  {
    if cards != [] {
      CountIsSum(cards[..|cards| - 1]);
    }
  }

  function TotalsOf(s: Snapshot): Totals {
    Totals(s.totalCards, s.totalMemory, s.usedMemory, s.totalSlots, s.usedSlots)
  }

  lemma TotalsAreTheClusters(s: Snapshot, names: seq<string>, inventory: map<string, seq<Card>>, pods: seq<Pod>)
    requires SnapshotAdds(s) && |names| == |s.nodes| && forall n :: n in names ==> n in inventory
    requires forall i :: 0 <= i < |names| ==> s.nodes[i].cards == Layered(inventory[names[i]], pods, names[i])
    ensures TotalsOf(s) == ClusterTotals(inventory, pods, names)
  {
    hide Layered, SumBy, NodeSum;
    forall i | 0 <= i < |s.nodes|
      ensures NodeCards(s.nodes[i]) == SumBy(s.nodes[i].cards, One)
    {
      CountIsSum(s.nodes[i].cards);
    }
    PerNode(names, s.nodes, inventory, pods, NodeCards, One);
    PerNode(names, s.nodes, inventory, pods, NodeTotalMemory, CardMemory);
    PerNode(names, s.nodes, inventory, pods, NodeUsedMemory, UsedMemory);
    PerNode(names, s.nodes, inventory, pods, NodeTotalNumber, CardNumber);
    PerNode(names, s.nodes, inventory, pods, NodeUsedNumber, UsedNumber);
  }
}
