/**
 * Trace-context propagation through text-map and HTTP-header carriers:
 * `Inject` writes a span context into a carrier under the x-instana-*
 * keys, `Extract` reads one back.
 *
 * A carrier's entries are a map; the order in which the carrier enumerates
 * them (Go map iteration order) is a parameter `order` that enumerates the
 * map.  Trace and span ids are parsed and formatted by functions passed in.
 */
module Propagation {
  import opened Wrappers

  const FieldT := "x-instana-t"    // trace id key
  const FieldS := "x-instana-s"    // span id key
  const FieldL := "x-instana-l"    // level key
  const FieldB := "x-instana-b-"   // prefix of baggage keys

  /** ASCII lower-casing of one character. */
  function LowerChar(c: char): char {
    if 'A' <= c <= 'Z' then (c as int + 32) as char else c
  }

  function Lower(s: string): (r: string)
    ensures |r| == |s|
  {
    seq(|s|, i requires 0 <= i < |s| => LowerChar(s[i]))
  }

  predicate HasPrefix(s: string, prefix: string) {
    |prefix| <= |s| && s[..|prefix|] == prefix
  }

  /** How a carrier key is read, after lower-casing it. */
  datatype HeaderKind = TraceKey | SpanKey | LevelKey | BaggageKey(name: string) | OtherKey

  predicate IsBaggageKey(key: string) {
    HasPrefix(Lower(key), FieldB)
  }

  function Classify(key: string): (r: HeaderKind)
    ensures r == TraceKey <==> Lower(key) == FieldT
    ensures r == SpanKey <==> Lower(key) == FieldS
    ensures r == LevelKey <==> Lower(key) == FieldL
    ensures r.BaggageKey? <==> IsBaggageKey(key)
    ensures r.BaggageKey? ==> Lower(key) == FieldB + r.name
  {
    var lk := Lower(key);
    if lk == FieldT then TraceKey
    else if lk == FieldS then SpanKey
    else if lk == FieldL then LevelKey
    else if HasPrefix(lk, FieldB) then BaggageKey(lk[|FieldB|..])
    else OtherKey
  }

  predicate IsIdKey(key: string) {
    Classify(key) == TraceKey || Classify(key) == SpanKey
  }

  datatype PropagationError =
    | ErrInvalidSpanContext
    | ErrInvalidCarrier
    | ErrSpanContextNotFound
    | ErrSpanContextCorrupted

  datatype SpanContext = SpanContext(traceID: int, spanID: int, baggage: map<string, string>)

  /** A span context handed to the propagator: this tracer's own, or one from another tracer. */
  datatype AnySpanContext = InstanaContext(sc: SpanContext) | ForeignContext

  /** The interfaces a carrier implements. */
  datatype CarrierKind = TextMapCarrier | HTTPHeadersCarrier | ReaderOnly | WriterOnly | NotACarrier

  predicate IsReader(kind: CarrierKind) {
    kind == TextMapCarrier || kind == HTTPHeadersCarrier || kind == ReaderOnly
  }

  predicate IsWriter(kind: CarrierKind) {
    kind == TextMapCarrier || kind == HTTPHeadersCarrier || kind == WriterOnly
  }

  /** `order` lists every key of `m` exactly once. */
  predicate Enumerates(order: seq<string>, m: map<string, string>) {
    && (forall i, j :: 0 <= i < j < |order| ==> order[i] != order[j])
    && (forall k :: k in m ==> k in order)
    && (forall k :: k in order ==> k in m)
  }

  /** The (key, value) pairs of `m` in the order the carrier visits them. */
  function Pairs(m: map<string, string>, order: seq<string>): (r: seq<(string, string)>)
    requires forall k :: k in order ==> k in m
    ensures |r| == |order|
    ensures forall i :: 0 <= i < |order| ==> r[i] == (order[i], m[order[i]])
  {
    seq(|order|, i requires 0 <= i < |order| => (order[i], m[order[i]]))
  }

  // ---------------------------------------------------------------- extract

  /** The indices of the trace- and span-id entries. */
  function IdIndices(pairs: seq<(string, string)>): set<int> {
    set i | 0 <= i < |pairs| && IsIdKey(pairs[i].0)
  }

  /** Some trace- or span-id entry does not parse. */
  predicate ParseFails(pairs: seq<(string, string)>, parse: string -> Option<int>) {
    exists i :: 0 <= i < |pairs| && IsIdKey(pairs[i].0) && parse(pairs[i].1).None?
  }

  /** The index of the last entry of the given kind, or -1 when there is none. */
  function LastIndex(pairs: seq<(string, string)>, kind: HeaderKind): (r: int)
    ensures -1 <= r < |pairs|
    ensures r >= 0 ==> Classify(pairs[r].0) == kind
    ensures forall j :: r < j < |pairs| ==> Classify(pairs[j].0) != kind
  {
    if |pairs| == 0 then -1
    else if Classify(pairs[|pairs| - 1].0) == kind then |pairs| - 1
    else LastIndex(pairs[..|pairs| - 1], kind)
  }

  /** The id parsed from the last entry of the given kind; zero when there is none. */
  function LastID(pairs: seq<(string, string)>, kind: HeaderKind, parse: string -> Option<int>): int {
    var j := LastIndex(pairs, kind);
    if j < 0 then 0
    else match parse(pairs[j].1)
      case None => 0
      case Some(id) => id
  }

  function BaggageName(key: string): Option<string> {
    match Classify(key)
    case BaggageKey(name) => Some(name)
    case _ => None
  }

  /** The baggage read from the entries: each name with the value of its last entry. */
  function Baggage(pairs: seq<(string, string)>): map<string, string> {
    if |pairs| == 0 then map[]
    else
      var last := pairs[|pairs| - 1];
      var rest := Baggage(pairs[..|pairs| - 1]);
      match BaggageName(last.0)
      case None => rest
      case Some(n) => rest[n := last.1]
  }

  /** The entry whose value a baggage name carries: the last one bearing that name. */
  predicate LastNamed(pairs: seq<(string, string)>, n: string, i: int) {
    0 <= i < |pairs| && BaggageName(pairs[i].0) == Some(n) &&
    forall j :: i < j < |pairs| ==> BaggageName(pairs[j].0) != Some(n)
  }

  /** An entry bearing another name leaves a name's baggage as it was. */
  lemma BaggageOtherName(pairs: seq<(string, string)>, n: string)
    requires |pairs| > 0 && BaggageName(pairs[|pairs| - 1].0) != Some(n)
    ensures n in Baggage(pairs) <==> n in Baggage(pairs[..|pairs| - 1])
    ensures n in Baggage(pairs) ==> Baggage(pairs)[n] == Baggage(pairs[..|pairs| - 1])[n]
  {
  }

  /** A name is in the baggage exactly when some entry bears it, and then carries the value of the last such entry. */
  lemma {:induction false} BaggageLastName(pairs: seq<(string, string)>, n: string)
    ensures n in Baggage(pairs) <==> exists i :: 0 <= i < |pairs| && BaggageName(pairs[i].0) == Some(n)
    ensures n in Baggage(pairs) ==> exists i :: LastNamed(pairs, n, i) && Baggage(pairs)[n] == pairs[i].1
  {
    if |pairs| > 0 {
      var init := pairs[..|pairs| - 1];
      var last := |pairs| - 1;
      if BaggageName(pairs[last].0) == Some(n) {
        assert LastNamed(pairs, n, last);
      } else {
        BaggageLastName(init, n);
        BaggageOtherName(pairs, n);
        if n in Baggage(pairs) {
          var i :| LastNamed(init, n, i) && Baggage(init)[n] == init[i].1;
          assert LastNamed(pairs, n, i);
        }
        if i :| 0 <= i < |pairs| && BaggageName(pairs[i].0) == Some(n) {
          assert i < last && init[i] == pairs[i];
        }
      }
    }
  }

  /**
   * What extraction yields from a carrier of the given kind visiting `pairs`:
   * a carrier that cannot be read is refused; an id that does not parse
   * corrupts the context; no id entry means there is none; a single id entry
   * is corrupt; otherwise the last trace id, the last span id and the baggage.
   */
  function Extracted(kind: CarrierKind, pairs: seq<(string, string)>, parse: string -> Option<int>): Result<SpanContext, PropagationError> {
    if !IsReader(kind) then Failure(ErrInvalidCarrier)
    else if ParseFails(pairs, parse) then Failure(ErrSpanContextCorrupted)
    else if |IdIndices(pairs)| == 0 then Failure(ErrSpanContextNotFound)
    else if |IdIndices(pairs)| < 2 then Failure(ErrSpanContextCorrupted)
    else Success(SpanContext(LastID(pairs, TraceKey, parse), LastID(pairs, SpanKey, parse), Baggage(pairs)))
  }

  /** The id of the given kind after one more entry. */
  function NextID(kind: HeaderKind, entry: (string, string), previous: int, parse: string -> Option<int>): int {
    if Classify(entry.0) != kind then previous
    else match parse(entry.1)
      case None => 0
      case Some(id) => id
  }

  lemma IdIndicesStep(pairs: seq<(string, string)>, i: int)
    requires 0 <= i < |pairs|
    ensures i !in IdIndices(pairs[..i])
    ensures IdIndices(pairs[..i + 1]) == IdIndices(pairs[..i]) + (if IsIdKey(pairs[i].0) then {i} else {})
  {
    var prefix := pairs[..i + 1];
    assert forall j :: 0 <= j < i ==> prefix[j] == pairs[..i][j];
  }

  lemma ParseFailsStep(pairs: seq<(string, string)>, i: int, parse: string -> Option<int>)
    requires 0 <= i < |pairs|
    ensures ParseFails(pairs[..i + 1], parse) <==>
      ParseFails(pairs[..i], parse) || (IsIdKey(pairs[i].0) && parse(pairs[i].1).None?)
  {
    var prefix := pairs[..i + 1];
    if ParseFails(prefix, parse) {
      var j :| 0 <= j < |prefix| && IsIdKey(prefix[j].0) && parse(prefix[j].1).None?;
      if j < i {
        assert prefix[j] == pairs[..i][j];
      }
    }
    if ParseFails(pairs[..i], parse) {
      var j :| 0 <= j < i && IsIdKey(pairs[..i][j].0) && parse(pairs[..i][j].1).None?;
      assert prefix[j] == pairs[..i][j];
    }
  }

  lemma LastIDStep(pairs: seq<(string, string)>, i: int, kind: HeaderKind, parse: string -> Option<int>)
    requires 0 <= i < |pairs|
    ensures LastID(pairs[..i + 1], kind, parse) == NextID(kind, pairs[i], LastID(pairs[..i], kind, parse), parse)
  {
    var prefix := pairs[..i + 1];
    assert prefix[..i] == pairs[..i];
    var j := LastIndex(pairs[..i], kind);
    if j >= 0 {
      assert prefix[j] == pairs[..i][j];
    }
  }

  lemma BaggageStep(pairs: seq<(string, string)>, i: int)
    requires 0 <= i < |pairs|
    ensures Baggage(pairs[..i + 1]) ==
      match BaggageName(pairs[i].0)
      case None => Baggage(pairs[..i])
      case Some(n) => Baggage(pairs[..i])[n := pairs[i].1]
  {
    assert pairs[..i + 1][..i] == pairs[..i];
  }

  /** What the extraction loop has gathered: the id entries seen, the two ids and the baggage. */
  datatype Scan = Scan(fieldCount: int, traceID: int, spanID: int, baggage: map<string, string>)

  /** One entry read by the extraction loop: an id entry is counted and its parsed value kept, a baggage entry stored. */
  function Absorb(acc: Scan, entry: (string, string), parse: string -> Option<int>): Scan {
    match Classify(entry.0)
    case TraceKey => acc.(fieldCount := acc.fieldCount + 1, traceID := NextID(TraceKey, entry, acc.traceID, parse))
    case SpanKey => acc.(fieldCount := acc.fieldCount + 1, spanID := NextID(SpanKey, entry, acc.spanID, parse))
    case BaggageKey(name) => acc.(baggage := acc.baggage[name := entry.1])
    case _ => acc
  }

  /** The extraction loop's state after the entries, read in order. */
  function ScanOf(pairs: seq<(string, string)>, parse: string -> Option<int>): Scan {
    if |pairs| == 0 then Scan(0, 0, 0, map[])
    else Absorb(ScanOf(pairs[..|pairs| - 1], parse), pairs[|pairs| - 1], parse)
  }

  lemma ScanOfStep(pairs: seq<(string, string)>, i: int, parse: string -> Option<int>)
    requires 0 <= i < |pairs|
    ensures ScanOf(pairs[..i + 1], parse) == Absorb(ScanOf(pairs[..i], parse), pairs[i], parse)
  {
    assert pairs[..i + 1][..i] == pairs[..i];
  }

  /**
   * The loop's state is what the entries determine: the number of id
   * entries, the last trace and span ids and the baggage.
   */
  lemma {:induction false} ScanOfMeaning(pairs: seq<(string, string)>, parse: string -> Option<int>)
    ensures ScanOf(pairs, parse)
         == Scan(|IdIndices(pairs)|, LastID(pairs, TraceKey, parse), LastID(pairs, SpanKey, parse), Baggage(pairs))
  {
    if |pairs| > 0 {
      var i := |pairs| - 1;
      assert pairs[..i + 1] == pairs;
      ScanOfMeaning(pairs[..i], parse);
      IdIndicesStep(pairs, i);
      LastIDStep(pairs, i, TraceKey, parse);
      LastIDStep(pairs, i, SpanKey, parse);
      BaggageStep(pairs, i);
    }
  }

  // ------------------------------------------------------------ inject

  /** The characters of an HTTP header-field token (RFC 7230, section 3.2.6). */
  predicate IsTokenChar(c: char) {
    ('a' <= c <= 'z') || ('A' <= c <= 'Z') || ('0' <= c <= '9') || c in "!#$%&'*+-.^_`|~"
  }

  lemma LowerConcat(a: string, b: string)
    ensures Lower(a + b) == Lower(a) + Lower(b)
  {
  }

  /** One character of the canonical form: `upper` says whether it starts a word. */
  function RecaseChar(c: char, upper: bool): (d: char)
    ensures LowerChar(d) == LowerChar(c)
    ensures d == '-' <==> c == '-'
  {
    if upper && 'a' <= c <= 'z' then (c as int - 32) as char
    else if !upper && 'A' <= c <= 'Z' then (c as int + 32) as char
    else c
  }

  /** Upper-cases the first letter and every letter after a '-', lower-cases the others. */
  function Recase(s: string, upper: bool): (r: string)
    ensures |r| == |s| && Lower(r) == Lower(s)
  {
    if |s| == 0 then ""
    else
      var d := RecaseChar(s[0], upper);
      var rest := Recase(s[1..], d == '-');
      LowerConcat([d], rest);
      LowerConcat([s[0]], s[1..]);
      assert s == [s[0]] + s[1..];
      [d] + rest
  }

  /** The canonical MIME form of a header key; a key that is not a token is kept as it is. */
  function CanonicalKey(key: string): (r: string)
    ensures Lower(r) == Lower(key)
  {
    if forall i :: 0 <= i < |key| ==> IsTokenChar(key[i]) then Recase(key, true) else key
  }

  /** The key under which a carrier stores `key`: HTTP headers store its canonical form. */
  function StoreKey(kind: CarrierKind, key: string): (r: string)
    ensures Lower(r) == Lower(key)
  {
    if kind == HTTPHeadersCarrier then CanonicalKey(key) else key
  }

  /**
   * The spelling under which the carrier already holds `field`: the last key
   * visited that lower-cases to it, or `field` itself when there is none.
   */
  function Spelling(order: seq<string>, field: string): (r: string)
    ensures (r in order && Lower(r) == field) || (r == field && forall k :: k in order ==> Lower(k) != field)
  {
    if |order| == 0 then field
    else if Lower(order[|order| - 1]) == field then order[|order| - 1]
    else Spelling(order[..|order| - 1], field)
  }

  /**
   * The spelling of the baggage prefix: the first |FieldB| characters of the
   * last baggage key visited, or FieldB itself when there is none.
   */
  function BaggageSpelling(order: seq<string>): (r: string)
    ensures |r| == |FieldB| && Lower(r) == FieldB
    ensures (exists k :: k in order && IsBaggageKey(k) && r == k[..|FieldB|])
         || (r == FieldB && forall k :: k in order ==> !IsBaggageKey(k))
  {
    if |order| == 0 then FieldB
    else
      var k := order[|order| - 1];
      if IsBaggageKey(k) then
        assert Lower(k[..|FieldB|]) == Lower(k)[..|FieldB|];
        k[..|FieldB|]
      else
        BaggageSpelling(order[..|order| - 1])
  }

  /** An HTTP header map after the old context is deleted: the three id spellings and every baggage key. */
  function Cleared(m: map<string, string>, t: string, s: string, l: string): (r: map<string, string>)
    ensures forall k :: k in r <==> k in m && k != t && k != s && k != l && !IsBaggageKey(k)
  {
    map k | k in m && k != t && k != s && k != l && !IsBaggageKey(k) :: m[k]
  }

  /** `m` with the baggage set under the prefix spelling `b`, in the order `bagOrder` visits it. */
  function WithBaggage(m: map<string, string>, kind: CarrierKind, b: string, bag: map<string, string>, bagOrder: seq<string>): map<string, string>
    requires forall n :: n in bagOrder ==> n in bag
  {
    if |bagOrder| == 0 then m
    else
      var n := bagOrder[|bagOrder| - 1];
      WithBaggage(m, kind, b, bag, bagOrder[..|bagOrder| - 1])[StoreKey(kind, b + n) := bag[n]]
  }

  /**
   * The entries of a readable, writable carrier that held `m` and visits its
   * keys in `order`, before the context is set: HTTP headers lose the old
   * context (the id spellings found and every baggage key); a text map keeps all.
   */
  function Base(m: map<string, string>, kind: CarrierKind, order: seq<string>): map<string, string> {
    if kind == HTTPHeadersCarrier then Cleared(m, Spelling(order, FieldT), Spelling(order, FieldS), Spelling(order, FieldL))
    else m
  }

  /** The entries once the trace id, span id and level are set under the spellings the carrier already uses. */
  function WithIds(m: map<string, string>, kind: CarrierKind, order: seq<string>, sc: SpanContext, format: int -> string): map<string, string> {
    SetIds(Base(m, kind, order),
           StoreKey(kind, Spelling(order, FieldT)), StoreKey(kind, Spelling(order, FieldS)), StoreKey(kind, Spelling(order, FieldL)),
           format(sc.traceID), format(sc.spanID))
  }

  /** `m` with the trace id, span id and level "1" stored under `kt`, `ks` and `kl`. */
  function SetIds(m: map<string, string>, kt: string, ks: string, kl: string, traceID: string, spanID: string): map<string, string> {
    m[kt := traceID][ks := spanID][kl := "1"]
  }

  /** The entries after injecting `sc`: the ids set, then the baggage under the prefix spelling. */
  function Injected(m: map<string, string>, kind: CarrierKind, order: seq<string>, sc: SpanContext,
                    bagOrder: seq<string>, format: int -> string): map<string, string>
    requires forall n :: n in bagOrder ==> n in sc.baggage
  {
    WithBaggage(WithIds(m, kind, order, sc, format), kind, BaggageSpelling(order), sc.baggage, bagOrder)
  }

  /** A carrier of trace context: its kind and its entries, which injection rewrites. */
  class Carrier {
    const kind: CarrierKind
    var entries: map<string, string>

    constructor (kind: CarrierKind, entries: map<string, string>)
      ensures this.kind == kind && this.entries == entries
    {
      this.kind := kind;
      this.entries := entries;
    }

    /** Stores `value` under `key`, as the carrier's kind spells it. */
    method Set(key: string, value: string)
      modifies this
      ensures entries == old(entries)[StoreKey(kind, key) := value]
    {
      entries := entries[StoreKey(kind, key) := value];
    }

    /** Removes exactly `key`, as deleting from the header map does. */
    method Delete(key: string)
      modifies this
      ensures entries == old(entries) - {key}
    {
      entries := entries - {key};
    }
  }

  /**
   * Extracts a span context from the carrier, visiting its entries in
   * `order` and stopping at the first id that does not parse.
   */
  method Extract(c: Carrier, order: seq<string>, parse: string -> Option<int>) returns (r: Result<SpanContext, PropagationError>)
    requires Enumerates(order, c.entries)
    ensures r == Extracted(c.kind, Pairs(c.entries, order), parse)
  {
    if !IsReader(c.kind) {
      return Failure(ErrInvalidCarrier);
    }
    ghost var pairs := Pairs(c.entries, order);
    var traceID, spanID, baggage, fieldCount := 0, 0, map[], 0;
    var i := 0;
    while i < |order|
      invariant 0 <= i <= |order|
      invariant !ParseFails(pairs[..i], parse)
      invariant Scan(fieldCount, traceID, spanID, baggage) == ScanOf(pairs[..i], parse)
    {
      var k, v := order[i], c.entries[order[i]];
      assert pairs[i] == (k, v);
      ParseFailsStep(pairs, i, parse);
      ScanOfStep(pairs, i, parse);
      match Classify(k) {
        case TraceKey =>
          fieldCount := fieldCount + 1;
          match parse(v) {
            case None =>
              assert IsIdKey(pairs[i].0) && parse(pairs[i].1).None?;
              return Failure(ErrSpanContextCorrupted);
            case Some(id) =>
              traceID := id;
          }
        case SpanKey =>
          fieldCount := fieldCount + 1;
          match parse(v) {
            case None =>
              assert IsIdKey(pairs[i].0) && parse(pairs[i].1).None?;
              return Failure(ErrSpanContextCorrupted);
            case Some(id) =>
              spanID := id;
          }
        case BaggageKey(name) =>
          baggage := baggage[name := v];
        case _ =>
      }
      i := i + 1;
    }
    assert pairs[..i] == pairs;
    ScanOfMeaning(pairs, parse);
    if fieldCount == 0 {
      return Failure(ErrSpanContextNotFound);
    } else if fieldCount < 2 {
      return Failure(ErrSpanContextCorrupted);
    }
    return Success(SpanContext(traceID, spanID, baggage));
  }

  /** The spellings the scan has found: of the trace, span and level keys and of the baggage prefix. */
  datatype Spellings = Spellings(t: string, s: string, l: string, b: string)

  /** One key visited by the scan: a key that spells a field, or a baggage key, becomes its spelling. */
  function Respell(sp: Spellings, k: string): Spellings
    requires |FieldB| <= |k| || !IsBaggageKey(k)
  {
    match Classify(k)
    case TraceKey => sp.(t := k)
    case SpanKey => sp.(s := k)
    case LevelKey => sp.(l := k)
    case BaggageKey(_) => sp.(b := k[..|FieldB|])
    case OtherKey => sp
  }

  /** The scan's spellings after visiting the keys in order. */
  function SpellingsOf(order: seq<string>): Spellings {
    if |order| == 0 then Spellings(FieldT, FieldS, FieldL, FieldB)
    else Respell(SpellingsOf(order[..|order| - 1]), order[|order| - 1])
  }

  lemma SpellingsOfStep(order: seq<string>, i: int)
    requires 0 <= i < |order|
    ensures SpellingsOf(order[..i + 1]) == Respell(SpellingsOf(order[..i]), order[i])
  {
    assert order[..i + 1][..i] == order[..i];
  }

  /** The scan finds the spellings the specification functions name. */
  lemma {:induction false} SpellingsOfMeaning(order: seq<string>)
    ensures SpellingsOf(order)
         == Spellings(Spelling(order, FieldT), Spelling(order, FieldS), Spelling(order, FieldL), BaggageSpelling(order))
  {
    if |order| > 0 {
      var i := |order| - 1;
      assert order[..i + 1] == order;
      SpellingsOfMeaning(order[..i]);
      SpellingStep(order, i, FieldT);
      SpellingStep(order, i, FieldS);
      SpellingStep(order, i, FieldL);
      BaggageSpellingStep(order, i);
      FieldsDistinct();
    }
  }

  lemma SpellingStep(order: seq<string>, i: int, field: string)
    requires 0 <= i < |order|
    ensures Spelling(order[..i + 1], field)
         == if Lower(order[i]) == field then order[i] else Spelling(order[..i], field)
  {
    assert order[..i + 1][..i] == order[..i];
  }

  lemma BaggageSpellingStep(order: seq<string>, i: int)
    requires 0 <= i < |order|
    ensures BaggageSpelling(order[..i + 1])
         == if IsBaggageKey(order[i]) then order[i][..|FieldB|] else BaggageSpelling(order[..i])
  {
    assert order[..i + 1][..i] == order[..i];
  }

  /** Finds the spellings of the id keys and of the baggage prefix the carrier already uses. */
  method ReadSpellings(order: seq<string>) returns (t: string, s: string, l: string, b: string)
    ensures t == Spelling(order, FieldT) && s == Spelling(order, FieldS) && l == Spelling(order, FieldL)
    ensures b == BaggageSpelling(order)
  {
    t, s, l, b := FieldT, FieldS, FieldL, FieldB;
    var i := 0;
    while i < |order|
      invariant 0 <= i <= |order|
      invariant Spellings(t, s, l, b) == SpellingsOf(order[..i])
    {
      var k := order[i];
      SpellingsOfStep(order, i);
      match Classify(k) {
        case TraceKey => t := k;
        case SpanKey => s := k;
        case LevelKey => l := k;
        case BaggageKey(_) => b := k[..|FieldB|];
        case OtherKey =>
      }
      i := i + 1;
    }
    assert order[..i] == order;
    SpellingsOfMeaning(order);
  }

  /** The entries of `m` that are not baggage keys, and those still in `keys`. */
  function KeepNonBaggage(m: map<string, string>, keys: set<string>): map<string, string> {
    map k | k in m && (k in keys || !IsBaggageKey(k)) :: m[k]
  }

  lemma KeepNonBaggageAll(m: map<string, string>)
    ensures KeepNonBaggage(m, m.Keys) == m
  {
  }

  lemma KeepNonBaggageNone(m: map<string, string>, t: string, s: string, l: string)
    ensures KeepNonBaggage(m - {t} - {s} - {l}, {}) == Cleared(m, t, s, l)
  {
  }

  lemma KeepNonBaggageStep(m: map<string, string>, keys: set<string>, key: string)
    requires key in keys
    ensures KeepNonBaggage(m, keys - {key}) ==
      if IsBaggageKey(key) then KeepNonBaggage(m, keys) - {key} else KeepNonBaggage(m, keys)
  {
  }

  /** Deletes the old context from HTTP headers: the three id spellings, then every baggage key. */
  method ClearHeaders(c: Carrier, t: string, s: string, l: string)
    modifies c
    ensures c.entries == Cleared(old(c.entries), t, s, l)
  {
    c.Delete(t);
    c.Delete(s);
    c.Delete(l);
    ghost var m := c.entries;
    var keys := c.entries.Keys;
    KeepNonBaggageAll(m);
    while keys != {}
      invariant c.entries == KeepNonBaggage(m, keys)
      decreases keys
    {
      var key :| key in keys;
      KeepNonBaggageStep(m, keys, key);
      if IsBaggageKey(key) {
        c.Delete(key);
      }
      keys := keys - {key};
    }
    KeepNonBaggageNone(old(c.entries), t, s, l);
  }

  /** Sets every baggage item under the prefix spelling `b`. */
  method SetBaggage(c: Carrier, b: string, bag: map<string, string>, bagOrder: seq<string>)
    requires forall n :: n in bagOrder ==> n in bag
    modifies c
    ensures c.entries == WithBaggage(old(c.entries), c.kind, b, bag, bagOrder)
  {
    var i := 0;
    while i < |bagOrder|
      invariant 0 <= i <= |bagOrder|
      invariant c.entries == WithBaggage(old(c.entries), c.kind, b, bag, bagOrder[..i])
    {
      assert bagOrder[..i + 1][..i] == bagOrder[..i];
      c.Set(b + bagOrder[i], bag[bagOrder[i]]);
      i := i + 1;
    }
    assert bagOrder[..i] == bagOrder;
  }

  /**
   * Injects a span context into the carrier.  A foreign context is refused;
   * so is a carrier that cannot be both read and written, which is left as it was.
   */
  method Inject(spanContext: AnySpanContext, c: Carrier, order: seq<string>, bagOrder: seq<string>, format: int -> string)
    returns (err: Option<PropagationError>)
    requires Enumerates(order, c.entries)
    requires spanContext.InstanaContext? ==> Enumerates(bagOrder, spanContext.sc.baggage)
    modifies c
    ensures spanContext.ForeignContext? ==> err == Some(ErrInvalidSpanContext) && unchanged(c)
    ensures spanContext.InstanaContext? && !(IsReader(c.kind) && IsWriter(c.kind)) ==>
      err == Some(ErrInvalidCarrier) && unchanged(c)
    ensures spanContext.InstanaContext? && IsReader(c.kind) && IsWriter(c.kind) ==>
      err == None && c.entries == Injected(old(c.entries), c.kind, order, spanContext.sc, bagOrder, format)
  {
    if spanContext.ForeignContext? {
      return Some(ErrInvalidSpanContext);
    }
    var sc := spanContext.sc;
    if !IsReader(c.kind) {
      return Some(ErrInvalidCarrier);
    }
    var t, s, l, b := ReadSpellings(order);
    if !IsWriter(c.kind) {
      return Some(ErrInvalidCarrier);
    }
    if c.kind == HTTPHeadersCarrier {
      ClearHeaders(c, t, s, l);
    }
    c.Set(t, format(sc.traceID));
    c.Set(s, format(sc.spanID));
    c.Set(l, "1");
    SetBaggage(c, b, sc.baggage, bagOrder);
    return None;
  }

  // ------------------------------------------------------------ properties

  /** A readable carrier yields "not found" exactly when none of its keys is a trace or span id. */
  lemma NotFoundIffNoIds(kind: CarrierKind, pairs: seq<(string, string)>, parse: string -> Option<int>)
    requires IsReader(kind)
    ensures Extracted(kind, pairs, parse) == Failure(ErrSpanContextNotFound) <==>
      forall i :: 0 <= i < |pairs| ==> !IsIdKey(pairs[i].0)
  {
    if forall i :: 0 <= i < |pairs| ==> !IsIdKey(pairs[i].0) {
      assert IdIndices(pairs) == {};
    } else {
      var i :| 0 <= i < |pairs| && IsIdKey(pairs[i].0);
      assert i in IdIndices(pairs);
    }
  }

  /**
   * Occurrences are counted, not kinds: two trace-id entries and no span-id
   * entry make a context, with span id zero.
   */
  lemma TwoTraceKeysSuffice(kind: CarrierKind, pairs: seq<(string, string)>, parse: string -> Option<int>, i: int, j: int)
    requires IsReader(kind) && !ParseFails(pairs, parse)
    requires 0 <= i < j < |pairs| && Classify(pairs[i].0) == TraceKey && Classify(pairs[j].0) == TraceKey
    requires forall k :: 0 <= k < |pairs| ==> Classify(pairs[k].0) != SpanKey
    ensures Extracted(kind, pairs, parse).Success?
    ensures Extracted(kind, pairs, parse).value.spanID == 0
  {
    assert {i, j} <= IdIndices(pairs);
    assert |{i, j}| == 2;
    SubsetCardinality({i, j}, IdIndices(pairs));
  }

  lemma SubsetCardinality(a: set<int>, b: set<int>)
    requires a <= b
    ensures |a| <= |b|
  {
    assert b == a + (b - a);
  }

  /** `m` holds at most one key that lower-cases to `field`. */
  predicate AtMostOneSpelling(m: map<string, string>, field: string) {
    forall k1, k2 :: k1 in m && k2 in m && Lower(k1) == field && Lower(k2) == field ==> k1 == k2
  }

  /** Under a prefix spelled `b`, a lower-case baggage name is stored under a baggage key that reads back as that name. */
  lemma BaggageKeyName(kind: CarrierKind, b: string, n: string)
    requires Lower(b) == FieldB && Lower(n) == n
    ensures IsBaggageKey(StoreKey(kind, b + n))
    ensures BaggageName(StoreKey(kind, b + n)) == Some(n)
  {
    LowerConcat(b, n);
    assert Lower(StoreKey(kind, b + n)) == FieldB + n;
  }

  /** Setting baggage touches only baggage keys, and every key it adds is the key of a name it visits. */
  lemma {:induction false} WithBaggageKeeps(m: map<string, string>, kind: CarrierKind, b: string, bag: map<string, string>, bagOrder: seq<string>)
    requires forall n :: n in bagOrder ==> n in bag
    requires Lower(b) == FieldB
    ensures forall k :: !IsBaggageKey(k) ==>
      (k in WithBaggage(m, kind, b, bag, bagOrder) <==> k in m) &&
      (k in m ==> WithBaggage(m, kind, b, bag, bagOrder)[k] == m[k])
    ensures forall k :: k in WithBaggage(m, kind, b, bag, bagOrder) && k !in m ==>
      exists n :: n in bagOrder && k == StoreKey(kind, b + n)
  {
    if |bagOrder| > 0 {
      var n := bagOrder[|bagOrder| - 1];
      var init := bagOrder[..|bagOrder| - 1];
      assert forall x :: x in init ==> x in bagOrder;
      WithBaggageKeeps(m, kind, b, bag, init);
      LowerConcat(b, n);
      assert IsBaggageKey(StoreKey(kind, b + n));
    }
  }

  /** With lower-case names, every visited baggage item ends up under its own key with its own value. */
  lemma {:induction false} WithBaggageStores(m: map<string, string>, kind: CarrierKind, b: string, bag: map<string, string>, bagOrder: seq<string>)
    requires forall n :: n in bagOrder ==> n in bag && Lower(n) == n
    requires Lower(b) == FieldB
    ensures forall n :: n in bagOrder ==>
      StoreKey(kind, b + n) in WithBaggage(m, kind, b, bag, bagOrder) &&
      WithBaggage(m, kind, b, bag, bagOrder)[StoreKey(kind, b + n)] == bag[n]
  {
    if |bagOrder| > 0 {
      var last := bagOrder[|bagOrder| - 1];
      var init := bagOrder[..|bagOrder| - 1];
      assert forall x :: x in init ==> x in bagOrder;
      WithBaggageStores(m, kind, b, bag, init);
      forall n | n in bagOrder && n != last
        ensures StoreKey(kind, b + n) != StoreKey(kind, b + last)
      {
        BaggageKeyName(kind, b, n);
        BaggageKeyName(kind, b, last);
      }
      forall n | n in bagOrder
        ensures n == last || n in init
      {
        var i :| 0 <= i < |bagOrder| && bagOrder[i] == n;
        if i < |bagOrder| - 1 {
          assert init[i] == n;
        }
      }
    }
  }

  /**
   * Before the ids are set, the carrier holds no baggage key, and no key
   * spelling the trace or span id other than the one it will be set under.
   */
  lemma InjectBase(m: map<string, string>, kind: CarrierKind, order: seq<string>)
    requires kind == TextMapCarrier || kind == HTTPHeadersCarrier
    requires Enumerates(order, m)
    requires AtMostOneSpelling(m, FieldT) && AtMostOneSpelling(m, FieldS)
    requires kind == TextMapCarrier ==> forall k :: k in m ==> !IsBaggageKey(k)
    ensures forall k :: k in Base(m, kind, order) ==> !IsBaggageKey(k)
    ensures forall k :: k in Base(m, kind, order) && Lower(k) == FieldT ==> k == StoreKey(kind, Spelling(order, FieldT))
    ensures forall k :: k in Base(m, kind, order) && Lower(k) == FieldS ==> k == StoreKey(kind, Spelling(order, FieldS))
  {
    var t, s := Spelling(order, FieldT), Spelling(order, FieldS);
    forall k | k in m && Lower(k) == FieldT
      ensures k == t
    {
      assert k in order;
    }
    forall k | k in m && Lower(k) == FieldS
      ensures k == s
    {
      assert k in order;
    }
  }

  /** The id keys are distinct and already lower case. */
  lemma FieldsDistinct()
    ensures FieldT != FieldS && FieldT != FieldL && FieldS != FieldL
    ensures Lower(FieldT) == FieldT && Lower(FieldS) == FieldS && Lower(FieldL) == FieldL
  {
    assert FieldT[10] != FieldS[10] && FieldT[10] != FieldL[10] && FieldS[10] != FieldL[10];
  }

  /** A key that spells one of the ids is not a baggage key. */
  lemma IdKeyNotBaggage(k: string)
    requires Lower(k) == FieldT || Lower(k) == FieldS || Lower(k) == FieldL
    ensures !IsBaggageKey(k)
  {
    assert Lower(k)[10] != FieldB[10];
  }

  /** The keys the three ids are stored under spell their fields, so they are distinct. */
  lemma IdKeys(kind: CarrierKind, order: seq<string>)
    ensures var kt, ks, kl := StoreKey(kind, Spelling(order, FieldT)), StoreKey(kind, Spelling(order, FieldS)), StoreKey(kind, Spelling(order, FieldL));
      && Lower(kt) == FieldT && Lower(ks) == FieldS && Lower(kl) == FieldL
      && kt != ks && kt != kl && ks != kl
  {
    FieldsDistinct();
  }

  /** Setting the ids touches no key but the three they are stored under. */
  lemma WithIdsOther(m: map<string, string>, kind: CarrierKind, order: seq<string>, sc: SpanContext, format: int -> string, k: string)
    requires k != StoreKey(kind, Spelling(order, FieldT)) && k != StoreKey(kind, Spelling(order, FieldS))
    requires k != StoreKey(kind, Spelling(order, FieldL))
    ensures k in WithIds(m, kind, order, sc, format) <==> k in Base(m, kind, order)
    ensures k in Base(m, kind, order) ==> WithIds(m, kind, order, sc, format)[k] == Base(m, kind, order)[k]
  {
    SetIdsOther(Base(m, kind, order),
                StoreKey(kind, Spelling(order, FieldT)), StoreKey(kind, Spelling(order, FieldS)), StoreKey(kind, Spelling(order, FieldL)),
                format(sc.traceID), format(sc.spanID), k);
  }

  lemma SetIdsOther(m: map<string, string>, kt: string, ks: string, kl: string, traceID: string, spanID: string, k: string)
    requires k != kt && k != ks && k != kl
    ensures k in SetIds(m, kt, ks, kl, traceID, spanID) <==> k in m
    ensures k in m ==> SetIds(m, kt, ks, kl, traceID, spanID)[k] == m[k]
  {
  }

  /** Once the ids are set, they are held under the spellings the carrier used, as the carrier stores them. */
  lemma WithIdsSet(m: map<string, string>, kind: CarrierKind, order: seq<string>, sc: SpanContext, format: int -> string)
    ensures var r := WithIds(m, kind, order, sc, format);
      var kt, ks := StoreKey(kind, Spelling(order, FieldT)), StoreKey(kind, Spelling(order, FieldS));
      && kt in r && Lower(kt) == FieldT && r[kt] == format(sc.traceID)
      && ks in r && Lower(ks) == FieldS && r[ks] == format(sc.spanID)
  {
    IdKeys(kind, order);
  }

  /**
   * Once the ids are set, a key that spells the trace or span id is the one
   * it was set under, and no key is a baggage key, when the carrier held at
   * most one spelling of each id and a text map held no baggage.
   */
  lemma WithIdsKey(m: map<string, string>, kind: CarrierKind, order: seq<string>, sc: SpanContext, format: int -> string, k: string)
    requires kind == TextMapCarrier || kind == HTTPHeadersCarrier
    requires Enumerates(order, m)
    requires AtMostOneSpelling(m, FieldT) && AtMostOneSpelling(m, FieldS)
    requires kind == TextMapCarrier ==> forall k :: k in m ==> !IsBaggageKey(k)
    requires k in WithIds(m, kind, order, sc, format)
    ensures Lower(k) == FieldT ==> k == StoreKey(kind, Spelling(order, FieldT))
    ensures Lower(k) == FieldS ==> k == StoreKey(kind, Spelling(order, FieldS))
    ensures !IsBaggageKey(k)
  {
    var kt, ks, kl := StoreKey(kind, Spelling(order, FieldT)), StoreKey(kind, Spelling(order, FieldS)), StoreKey(kind, Spelling(order, FieldL));
    IdKeys(kind, order);
    if k != kt && k != ks && k != kl {
      WithIdsOther(m, kind, order, sc, format, k);
      InjectBase(m, kind, order);
    } else {
      IdKeyNotBaggage(k);
    }
  }

  /** After injection there is one trace-id key and one span-id key, holding the formatted ids. */
  lemma InjectedIds(m: map<string, string>, kind: CarrierKind, order: seq<string>, sc: SpanContext,
                    bagOrder: seq<string>, format: int -> string)
    requires kind == TextMapCarrier || kind == HTTPHeadersCarrier
    requires Enumerates(order, m) && Enumerates(bagOrder, sc.baggage)
    requires AtMostOneSpelling(m, FieldT) && AtMostOneSpelling(m, FieldS)
    requires kind == TextMapCarrier ==> forall k :: k in m ==> !IsBaggageKey(k)
    ensures var r := Injected(m, kind, order, sc, bagOrder, format);
      var kt, ks := StoreKey(kind, Spelling(order, FieldT)), StoreKey(kind, Spelling(order, FieldS));
      && kt in r && Lower(kt) == FieldT && r[kt] == format(sc.traceID)
      && ks in r && Lower(ks) == FieldS && r[ks] == format(sc.spanID)
      && (forall k :: k in r && Lower(k) == FieldT ==> k == kt)
      && (forall k :: k in r && Lower(k) == FieldS ==> k == ks)
  {
    var b := BaggageSpelling(order);
    var ids := WithIds(m, kind, order, sc, format);
    var r := Injected(m, kind, order, sc, bagOrder, format);
    var kt, ks := StoreKey(kind, Spelling(order, FieldT)), StoreKey(kind, Spelling(order, FieldS));
    WithIdsSet(m, kind, order, sc, format);
    WithBaggageKeeps(ids, kind, b, sc.baggage, bagOrder);
    assert kt in r && r[kt] == format(sc.traceID) && ks in r && r[ks] == format(sc.spanID) by {
      IdKeyNotBaggage(kt);
      IdKeyNotBaggage(ks);
    }
    forall k | k in r && (Lower(k) == FieldT || Lower(k) == FieldS)
      ensures Lower(k) == FieldT ==> k == kt
      ensures Lower(k) == FieldS ==> k == ks
    {
      IdKeyNotBaggage(k);
      WithIdsKey(m, kind, order, sc, format, k);
    }
  }

  /** After injection the baggage keys carry exactly the context's baggage, when its names are lower case. */
  lemma InjectedBaggage(m: map<string, string>, kind: CarrierKind, order: seq<string>, sc: SpanContext,
                        bagOrder: seq<string>, format: int -> string)
    requires kind == TextMapCarrier || kind == HTTPHeadersCarrier
    requires Enumerates(order, m) && Enumerates(bagOrder, sc.baggage)
    requires AtMostOneSpelling(m, FieldT) && AtMostOneSpelling(m, FieldS)
    requires kind == TextMapCarrier ==> forall k :: k in m ==> !IsBaggageKey(k)
    requires forall n :: n in sc.baggage ==> Lower(n) == n
    ensures var r := Injected(m, kind, order, sc, bagOrder, format);
      && (forall n :: n in sc.baggage ==> exists k :: k in r && BaggageName(k) == Some(n))
      && (forall k :: k in r && BaggageName(k).Some? ==>
            BaggageName(k).value in sc.baggage && r[k] == sc.baggage[BaggageName(k).value])
  {
    var b := BaggageSpelling(order);
    var ids := WithIds(m, kind, order, sc, format);
    var r := Injected(m, kind, order, sc, bagOrder, format);
    WithBaggageKeeps(ids, kind, b, sc.baggage, bagOrder);
    WithBaggageStores(ids, kind, b, sc.baggage, bagOrder);
    forall n | n in sc.baggage
      ensures exists k :: k in r && BaggageName(k) == Some(n)
    {
      BaggageKeyName(kind, b, n);
    }
    forall k | k in r && BaggageName(k).Some?
      ensures BaggageName(k).value in sc.baggage && r[k] == sc.baggage[BaggageName(k).value]
    {
      assert IsBaggageKey(k);
      if k in ids {
        WithIdsKey(m, kind, order, sc, format, k);
      }
      var n :| n in bagOrder && k == StoreKey(kind, b + n);
      BaggageKeyName(kind, b, n);
    }
  }

  /** The only entry of a kind is the last one. */
  lemma LastIndexOnly(pairs: seq<(string, string)>, kind: HeaderKind, i: int)
    requires 0 <= i < |pairs| && Classify(pairs[i].0) == kind
    requires forall j :: 0 <= j < |pairs| && Classify(pairs[j].0) == kind ==> j == i
    ensures LastIndex(pairs, kind) == i
  {
  }

  /** In entries visited in `order`, the key `k` of `m` that alone lower-cases to `field` sits at one index only. */
  lemma OnlyIndex(m: map<string, string>, order: seq<string>, k: string, field: string) returns (i: int)
    requires Enumerates(order, m)
    requires k in m && Lower(k) == field
    requires forall k' :: k' in m && Lower(k') == field ==> k' == k
    ensures 0 <= i < |order| && order[i] == k
    ensures forall j :: 0 <= j < |order| && Lower(order[j]) == field ==> j == i
  {
    i :| 0 <= i < |order| && order[i] == k;
    forall j | 0 <= j < |order| && Lower(order[j]) == field
      ensures j == i
    {
      assert order[j] in m;
    }
  }

  /**
   * Extraction from entries with exactly one trace-id key and one span-id
   * key, both parsing, yields those two ids.
   */
  lemma ExtractIds(m: map<string, string>, order: seq<string>, kt: string, ks: string, parse: string -> Option<int>, traceID: int, spanID: int)
    requires Enumerates(order, m)
    requires kt in m && Lower(kt) == FieldT && parse(m[kt]) == Some(traceID)
    requires ks in m && Lower(ks) == FieldS && parse(m[ks]) == Some(spanID)
    requires forall k :: k in m && Lower(k) == FieldT ==> k == kt
    requires forall k :: k in m && Lower(k) == FieldS ==> k == ks
    ensures var pairs := Pairs(m, order);
      !ParseFails(pairs, parse) && |IdIndices(pairs)| == 2 &&
      LastID(pairs, TraceKey, parse) == traceID && LastID(pairs, SpanKey, parse) == spanID
  {
    var pairs := Pairs(m, order);
    var iT := OnlyIndex(m, order, kt, FieldT);
    var iS := OnlyIndex(m, order, ks, FieldS);
    assert IdIndices(pairs) == {iT, iS};
    LastIndexOnly(pairs, TraceKey, iT);
    LastIndexOnly(pairs, SpanKey, iS);
  }

  /** Every name some key of `m` bears is read as baggage. */
  lemma BaggageHasNames(m: map<string, string>, order: seq<string>, names: set<string>)
    requires Enumerates(order, m)
    requires forall n :: n in names ==> exists k :: k in m && BaggageName(k) == Some(n)
    ensures forall n :: n in names ==> n in Baggage(Pairs(m, order))
  {
    var pairs := Pairs(m, order);
    forall n | n in names
      ensures n in Baggage(pairs)
    {
      BaggageLastName(pairs, n);
      var k :| k in m && BaggageName(k) == Some(n);
      var i :| 0 <= i < |order| && order[i] == k;
      assert BaggageName(pairs[i].0) == Some(n);
    }
  }

  /** Every name read as baggage is borne by some key of `m`, and carries that key's value. */
  lemma BaggageFromKeys(m: map<string, string>, order: seq<string>, n: string)
    requires Enumerates(order, m)
    requires n in Baggage(Pairs(m, order))
    ensures exists k :: k in m && BaggageName(k) == Some(n) && Baggage(Pairs(m, order))[n] == m[k]
  {
    var pairs := Pairs(m, order);
    BaggageLastName(pairs, n);
    var i :| LastNamed(pairs, n, i) && Baggage(pairs)[n] == pairs[i].1;
    assert pairs[i] == (order[i], m[order[i]]);
    assert order[i] in m && BaggageName(order[i]) == Some(n);
  }

  /**
   * Extraction from entries in which every lower-case baggage name has a key
   * and every baggage key carries the value of its name yields that baggage.
   */
  lemma ExtractBaggage(m: map<string, string>, order: seq<string>, bag: map<string, string>)
    requires Enumerates(order, m)
    requires forall n :: n in bag ==> exists k :: k in m && BaggageName(k) == Some(n)
    requires forall k :: k in m && BaggageName(k).Some? ==> BaggageName(k).value in bag && m[k] == bag[BaggageName(k).value]
    ensures Baggage(Pairs(m, order)) == bag
  {
    var pairs := Pairs(m, order);
    BaggageHasNames(m, order, bag.Keys);
    forall n | n in Baggage(pairs)
      ensures n in bag && Baggage(pairs)[n] == bag[n]
    {
      BaggageFromKeys(m, order, n);
    }
  }

  /**
   * Round trip: a context injected into a text map or HTTP headers is
   * extracted unchanged, whatever order the carrier then visits its entries
   * in, provided the carrier held at most one spelling of each id key, a
   * text map held no baggage key, baggage names are lower case, and the id
   * format parses back.
   */
  lemma RoundTrip(m: map<string, string>, kind: CarrierKind, order: seq<string>, sc: SpanContext, bagOrder: seq<string>,
                  format: int -> string, parse: string -> Option<int>, order2: seq<string>)
    requires kind == TextMapCarrier || kind == HTTPHeadersCarrier
    requires Enumerates(order, m) && Enumerates(bagOrder, sc.baggage)
    requires AtMostOneSpelling(m, FieldT) && AtMostOneSpelling(m, FieldS)
    requires kind == TextMapCarrier ==> forall k :: k in m ==> !IsBaggageKey(k)
    requires forall n :: n in sc.baggage ==> Lower(n) == n
    requires parse(format(sc.traceID)) == Some(sc.traceID) && parse(format(sc.spanID)) == Some(sc.spanID)
    requires Enumerates(order2, Injected(m, kind, order, sc, bagOrder, format))
    ensures Extracted(kind, Pairs(Injected(m, kind, order, sc, bagOrder, format), order2), parse) == Success(sc)
  {
    var r := Injected(m, kind, order, sc, bagOrder, format);
    InjectedIds(m, kind, order, sc, bagOrder, format);
    InjectedBaggage(m, kind, order, sc, bagOrder, format);
    ExtractIds(r, order2, StoreKey(kind, Spelling(order, FieldT)), StoreKey(kind, Spelling(order, FieldS)),
               parse, sc.traceID, sc.spanID);
    ExtractBaggage(r, order2, sc.baggage);
  }

  /**
   * In a text map, a second spelling of the trace-id key survives injection
   * with its old value: only the last spelling visited is overwritten.
   * Extraction may then read the stale id.  (In HTTP headers the canonical
   * spelling is overwritten as well, since the new value is stored under it.)
   */
  lemma StaleTraceSpelling(m: map<string, string>, order: seq<string>, sc: SpanContext,
                           bagOrder: seq<string>, format: int -> string, k1: string, k2: string)
    requires Enumerates(order, m) && Enumerates(bagOrder, sc.baggage)
    requires k1 in m && k2 in m && k1 != k2 && Lower(k1) == FieldT && Lower(k2) == FieldT
    ensures exists k ::
              && k in m && Lower(k) == FieldT
              && k in Injected(m, TextMapCarrier, order, sc, bagOrder, format)
              && Injected(m, TextMapCarrier, order, sc, bagOrder, format)[k] == m[k]
  {
    var t, s, l := Spelling(order, FieldT), Spelling(order, FieldS), Spelling(order, FieldL);
    var k := if k1 == t then k2 else k1;
    IdKeys(TextMapCarrier, order);
    FieldsDistinct();
    IdKeyNotBaggage(k);
    assert k != t && k != s && k != l;
    var ids := WithIds(m, TextMapCarrier, order, sc, format);
    WithIdsOther(m, TextMapCarrier, order, sc, format, k);
    WithBaggageKeeps(ids, TextMapCarrier, BaggageSpelling(order), sc.baggage, bagOrder);
  }
}
