/** Aggregation: the values of the hosts are summed up per group, and the sums of the groups are
    summed up again for the whole cluster. */
module Aggregation {
  import HostMatch
  import opened Enumeration
  import opened Options

  datatype Action = Sum | Mean | OtherAction

  /** An aggregate; a target key collects the values of all matching keys. */
  datatype Aggregate = Aggregate(action: Action, target: Option<string>)

  type Factor = x: int | x != 0 witness 1

  /** A vector entry; meta stands for format, info, unit, type and base. */
  datatype VE = VE(meta: string, key: string, value: int, factor: Factor)

  /** An entry and the aggregates that want it. */
  datatype Entry = Entry(aggs: seq<string>, ve: VE)

  datatype KeySink = KeySink(action: Action, meta: string, factor: Factor, values: seq<int>)

  /** The key sinks of all aggregates, by aggregate and key. */
  type Sinks = map<(string, string), KeySink>

  /** aggregates: name to definition; matches: the aggregates whose expressions match a key. */
  datatype Config = Config(aggregates: map<string, Aggregate>, matches: string -> seq<string>)

  ghost predicate Valid(c: Config) {
    forall k :: Distinct(c.matches(k)) && forall a :: a in c.matches(k) ==> a in c.aggregates
  }

  /** Python's integer division rounds down. */
  function FloorDiv(a: int, b: Factor): int {
    var d: int := b;
    if d > 0 then a / d else -a / -d
  }

  function Total(s: seq<int>): int { if s == [] then 0 else Total(s[..|s| - 1]) + s[|s| - 1] }

  function SinkValue(s: KeySink): int {
    match s.action
    case Sum => FloorDiv(Total(s.values), s.factor)
    case Mean => if s.values == [] then 0 else MeanOf(s.values, s.factor)
    case OtherAction => 0
  }

  function MeanOf(values: seq<int>, factor: Factor): int
    requires values != []
  {
    NonZero(|values|, factor);
    FloorDiv(Total(values), |values| * factor)
  }

  /** Division rounds towards minus infinity, whatever the signs. */
  lemma FloorDivExact(a: int, b: Factor, q: int)
    ensures FloorDiv(a, b) == q <==> if b > 0 then q * b <= a < q * b + b else q * b >= a > q * b + b
  {
    var d: int := b;
    if d > 0 {
      Quotient(a, d, q, a / d, a % d);
    } else {
      Quotient(-a, -d, q, -a / -d, -a % -d);
      assert q * -d == -(q * d);
    }
  }

  lemma Quotient(a: int, d: int, q: int, p: int, r: int)
    requires d > 0 && a == d * p + r && 0 <= r < d
    ensures p == q <==> q * d <= a < q * d + d
  {
    if q < p {
      TimesMonotone(d, q + 1, p);
    } else if q > p {
      TimesMonotone(d, p + 1, q);
    }
  }

  /** The mean is the total divided by the number of values times the factor. */
  lemma MeanExact(values: seq<int>, factor: Factor, q: int)
    requires values != []
    ensures var b := |values| * factor;
            MeanOf(values, factor) == q <==>
            if factor > 0 then q * b <= Total(values) < q * b + b else q * b >= Total(values) > q * b + b
  {
    NonZero(|values|, factor);
    SignOf(|values|, factor);
    FloorDivExact(Total(values), |values| * factor, q);
  }

  lemma SignOf(n: int, f: int)
    requires n > 0 && f != 0
    ensures n * f > 0 <==> f > 0
  {}

  lemma NonZero(a: int, b: int)
    requires a != 0 && b != 0
    ensures a * b != 0
  {}

  // ----- feeding -----

  function Retarget(c: Config, a: string, ve: VE): VE
    requires a in c.aggregates
  {
    match c.aggregates[a].target
    case Some(t) => ve.(key := t)
    case None => ve
  }

  /** AGSink.feed_ve; the key of the entry itself is changed to the target key. */
  function FeedOne(c: Config, s: Sinks, a: string, ve: VE): (Sinks, VE)
    requires a in c.aggregates
  {
    var v := Retarget(c, a, ve);
    var sink := if (a, v.key) in s then s[(a, v.key)] else KeySink(c.aggregates[a].action, v.meta, v.factor, []);
    (s[(a, v.key) := sink.(values := sink.values + [v.value * v.factor])], v)
  }

  function FeedAggs(c: Config, s: Sinks, aggs: seq<string>, ve: VE): (Sinks, VE)
    requires forall a :: a in aggs ==> a in c.aggregates
  {
    if aggs == [] then (s, ve)
    else
      var (s', v) := FeedAggs(c, s, aggs[..|aggs| - 1], ve);
      FeedOne(c, s', aggs[|aggs| - 1], v)
  }

  ghost predicate Usable(c: Config, es: seq<Entry>) {
    forall e :: e in es ==> forall a :: a in e.aggs ==> a in c.aggregates
  }

  function FeedAll(c: Config, es: seq<Entry>): Sinks
    requires Usable(c, es)
  {
    if es == [] then map[] else FeedAggs(c, FeedAll(c, es[..|es| - 1]), es[|es| - 1].aggs, es[|es| - 1].ve).0
  }

  function SinkEntry(s: Sinks, id: (string, string)): VE
    requires id in s
  {
    VE(s[id].meta, id.1, SinkValue(s[id]), s[id].factor)
  }

  function Vector(s: Sinks, order: seq<(string, string)>): seq<VE>
    requires forall x :: x in order ==> x in s
  {
    seq(|order|, i requires 0 <= i < |order| => SinkEntry(s, order[i]))
  }

  /** The entries that some aggregate wants. */
  function FilterVector(c: Config, v: seq<VE>): seq<Entry> {
    if v == [] then []
    else
      var before, x := FilterVector(c, v[..|v| - 1]), v[|v| - 1];
      if c.matches(x.key) == [] then before else before + [Entry(c.matches(x.key), x)]
  }

  /** The filtered vectors of the sources that have one. */
  function EntriesOf(c: Config, srcs: seq<string>, vectors: map<string, seq<VE>>): seq<Entry> {
    if srcs == [] then []
    else
      var before, u := EntriesOf(c, srcs[..|srcs| - 1], vectors), srcs[|srcs| - 1];
      if u in vectors then before + FilterVector(c, vectors[u]) else before
  }

  /** v is what _create_aggregates may return for the sources, in one order or another. */
  ghost predicate IsAggregate(c: Config, srcs: seq<string>, vectors: map<string, seq<VE>>, v: seq<VE>) {
    var es := EntriesOf(c, srcs, vectors);
    Usable(c, es) &&
    var s := FeedAll(c, es);
    exists order :: Lists(order, s.Keys) && v == Vector(s, order)
  }

  // ----- the code -----

  lemma {:induction false} FilterUsable(c: Config, v: seq<VE>)
    requires Valid(c)
    ensures Usable(c, FilterVector(c, v))
  {
    if v != [] { FilterUsable(c, v[..|v| - 1]); }
  }

  lemma {:induction false} EntriesUsable(c: Config, srcs: seq<string>, vectors: map<string, seq<VE>>)
    requires Valid(c)
    ensures Usable(c, EntriesOf(c, srcs, vectors))
  {
    if srcs != [] {
      EntriesUsable(c, srcs[..|srcs| - 1], vectors);
      if srcs[|srcs| - 1] in vectors { FilterUsable(c, vectors[srcs[|srcs| - 1]]); }
    }
  }

  lemma FeedAllSnoc(c: Config, es: seq<Entry>, e: Entry)
    requires Usable(c, es + [e]) && Usable(c, es)
    ensures FeedAll(c, es + [e]) == FeedAggs(c, FeedAll(c, es), e.aggs, e.ve).0
  {
    assert (es + [e])[..|es|] == es;
    assert e in es + [e];
  }

  /** Feeds one entry into all aggregates that want it. */
  method FeedEntry(c: Config, sinks: Sinks, e: Entry) returns (r: Sinks)
    requires forall a :: a in e.aggs ==> a in c.aggregates
    ensures r == FeedAggs(c, sinks, e.aggs, e.ve).0
  {
    r := sinks;
    var ve := e.ve;
    for i := 0 to |e.aggs|
      invariant (r, ve) == FeedAggs(c, sinks, e.aggs[..i], e.ve)
    {
      assert e.aggs[..i + 1][..i] == e.aggs[..i];
      var a := e.aggs[i];
      ghost var r0 := r;
      if c.aggregates[a].target.Some? {
        ve := ve.(key := c.aggregates[a].target.value);
      }
      if (a, ve.key) !in r {
        r := r[(a, ve.key) := KeySink(c.aggregates[a].action, ve.meta, ve.factor, [])];
      }
      var sink := r[(a, ve.key)].(values := r[(a, ve.key)].values + [ve.value * ve.factor]);
      r := r[(a, ve.key) := sink];
      assert r == r0[(a, ve.key) := sink];
    }
    assert e.aggs[..|e.aggs|] == e.aggs;
  }

  lemma UsableSnoc(c: Config, es: seq<Entry>, v: seq<Entry>, i: nat)
    requires Usable(c, es) && Usable(c, v) && i < |v|
    ensures Usable(c, es + [v[i]]) && forall a :: a in v[i].aggs ==> a in c.aggregates
  {
    assert v[i] in v;
  }

  method FeedVector(c: Config, sinks: Sinks, v: seq<Entry>, ghost before: seq<Entry>) returns (r: Sinks)
    requires Usable(c, before) && Usable(c, v) && sinks == FeedAll(c, before)
    ensures Usable(c, before + v) && r == FeedAll(c, before + v)
  {
    hide FeedAggs;
    r := sinks;
    assert before + v[..0] == before;
    for i := 0 to |v|
      invariant Usable(c, before + v[..i]) && r == FeedAll(c, before + v[..i])
    {
      assert v[i] in v;
      UsableSnoc(c, before + v[..i], v, i);
      hide Usable, FeedAll;
      r := FeedEntry(c, r, v[i]);
      assert before + v[..i + 1] == before + v[..i] + [v[i]];
      FeedAllSnoc(c, before + v[..i], v[i]);
    }
    assert v[..|v|] == v;
  }

  /** _create_aggregates */
  method CreateAggregates(c: Config, srcs: seq<string>, vectors: map<string, seq<VE>>) returns (v: seq<VE>)
    requires Valid(c)
    ensures IsAggregate(c, srcs, vectors, v)
  {
    hide FeedAll, FilterVector;
    var sinks: Sinks := map[];
    FeedNothing(c);
    for i := 0 to |srcs|
      invariant Usable(c, EntriesOf(c, srcs[..i], vectors)) && sinks == FeedAll(c, EntriesOf(c, srcs[..i], vectors))
    {
      assert srcs[..i + 1][..i] == srcs[..i];
      if srcs[i] in vectors {
        var entries := FilterVector(c, vectors[srcs[i]]);
        FilterUsable(c, vectors[srcs[i]]);
        sinks := FeedVector(c, sinks, entries, EntriesOf(c, srcs[..i], vectors));
      }
    }
    assert srcs[..|srcs|] == srcs;
    ghost var order: seq<(string, string)> := [];
    var todo := sinks.Keys;
    v := [];
    while todo != {}
      invariant todo <= sinks.Keys && Lists(order, sinks.Keys - todo) && v == Vector(sinks, order)
      decreases todo
    {
      var id :| id in todo;
      assert sinks.Keys - (todo - {id}) == sinks.Keys - todo + {id};
      order := order + [id];
      v := v + [SinkEntry(sinks, id)];
      todo := todo - {id};
    }
    assert sinks.Keys - {} == sinks.Keys;
    assert Lists(order, sinks.Keys);
  }

  lemma FeedNothing(c: Config)
    ensures Usable(c, []) && FeedAll(c, []) == map[]
  {}

  function Uuids(parts: seq<HostMatch.Part>): seq<string> {
    seq(|parts|, i requires 0 <= i < |parts| => parts[i].uuid)
  }

  /** The vectors of the groups. */
  function MetaOf(parts: seq<HostMatch.Part>, vecs: seq<seq<VE>>): map<string, seq<VE>>
    requires |parts| == |vecs|
  {
    if parts == [] then map[]
    else MetaOf(parts[..|parts| - 1], vecs[..|parts| - 1])[parts[|parts| - 1].uuid := vecs[|parts| - 1]]
  }

  /** What build_vectors may send: one vector per group, and the one of the cluster, made of those. */
  ghost predicate IsBuilt(c: Config, parts: seq<HostMatch.Part>, vectors: map<string, seq<VE>>, groups: seq<seq<VE>>,
                          sys: seq<VE>) {
    && |groups| == |parts|
    && (forall i :: 0 <= i < |parts| ==> IsAggregate(c, parts[i].members, vectors, groups[i]))
    && (if parts == [] then sys == [] else IsAggregate(c, Uuids(parts), MetaOf(parts, groups), sys))
  }

  method BuildVectors(c: Config, parts: seq<HostMatch.Part>, vectors: map<string, seq<VE>>)
    returns (groups: seq<seq<VE>>, sys: seq<VE>)
    requires Valid(c)
    ensures IsBuilt(c, parts, vectors, groups, sys)
  {
    hide IsAggregate;
    groups := [];
    var meta: map<string, seq<VE>> := map[];
    for i := 0 to |parts|
      invariant |groups| == i && meta == MetaOf(parts[..i], groups)
      invariant forall j :: 0 <= j < i ==> IsAggregate(c, parts[j].members, vectors, groups[j])
    {
      var v := CreateAggregates(c, parts[i].members, vectors);
      assert parts[..i + 1][..i] == parts[..i] && (groups + [v])[..i] == groups;
      groups := groups + [v];
      meta := meta[parts[i].uuid := v];
    }
    assert parts[..|parts|] == parts;
    sys := [];
    if parts != [] {
      sys := CreateAggregates(c, Uuids(parts), meta);
    }
  }

  // ----- sums -----

  /** The sum of the values under a key. */
  function KeySum(v: seq<VE>, k: string): int {
    if v == [] then 0 else KeySum(v[..|v| - 1], k) + if v[|v| - 1].key == k then v[|v| - 1].value else 0
  }

  function EntrySum(es: seq<Entry>, k: string): int {
    if es == [] then 0 else EntrySum(es[..|es| - 1], k) + if es[|es| - 1].ve.key == k then es[|es| - 1].ve.value else 0
  }

  /** The sum over all sources that have a vector. */
  function HostSum(srcs: seq<string>, vectors: map<string, seq<VE>>, k: string): int {
    if srcs == [] then 0
    else
      var u := srcs[|srcs| - 1];
      HostSum(srcs[..|srcs| - 1], vectors, k) + if u in vectors then KeySum(vectors[u], k) else 0
  }

  /** The entries under a key, in their order. */
  function Under(v: seq<VE>, k: string): seq<VE> {
    if v == [] then []
    else
      var before, x := Under(v[..|v| - 1], k), v[|v| - 1];
      if x.key == k then before + [x] else before
  }

  function UnderEntries(es: seq<Entry>, k: string): seq<VE> {
    if es == [] then []
    else
      var before, x := UnderEntries(es[..|es| - 1], k), es[|es| - 1].ve;
      if x.key == k then before + [x] else before
  }

  /** The entries under a key of all sources that have a vector, in the order they are fed. */
  function UnderSources(srcs: seq<string>, vectors: map<string, seq<VE>>, k: string): seq<VE> {
    if srcs == [] then []
    else
      var before, u := UnderSources(srcs[..|srcs| - 1], vectors, k), srcs[|srcs| - 1];
      if u in vectors then before + Under(vectors[u], k) else before
  }

  ghost predicate HasKey(es: seq<Entry>, k: string) { UnderEntries(es, k) != [] }

  ghost predicate VectorHas(v: seq<VE>, k: string) { exists x :: x in v && x.key == k }

  /** The key goes only into aggregates without target key, and nothing else is renamed to it. */
  ghost predicate Untargeted(c: Config, k: string) {
    && (forall a :: a in c.matches(k) ==> a in c.aggregates && c.aggregates[a].target == None)
    && (forall a :: a in c.aggregates ==> c.aggregates[a].target != Some(k))
  }

  /** The same, and all these aggregates are sums. */
  ghost predicate Plain(c: Config, k: string) {
    Untargeted(c, k) && forall a :: a in c.matches(k) ==> c.aggregates[a].action == Sum
  }

  ghost predicate OneFactor(v: seq<VE>, k: string, f: Factor) {
    forall x :: x in v && x.key == k ==> x.factor == f
  }

  ghost predicate Filtered(c: Config, es: seq<Entry>) {
    forall e :: e in es ==> e.aggs == c.matches(e.ve.key)
  }

  lemma {:induction false} FeedOther(c: Config, s: Sinks, aggs: seq<string>, ve: VE, k: string)
    requires (forall a :: a in aggs ==> a in c.aggregates) && Untargeted(c, k) && ve.key != k
    ensures var (s', v) := FeedAggs(c, s, aggs, ve);
            && v.key != k
            && forall a :: ((a, k) in s' <==> (a, k) in s) && ((a, k) in s ==> s'[(a, k)] == s[(a, k)])
  {
    if aggs != [] {
      FeedOther(c, s, aggs[..|aggs| - 1], ve, k);
    }
  }

  /** What feeding a value does to the sink of an aggregate. */
  function Fed(c: Config, s: Sinks, a: string, ve: VE): KeySink
    requires a in c.aggregates
  {
    var sink := if (a, ve.key) in s then s[(a, ve.key)] else KeySink(c.aggregates[a].action, ve.meta, ve.factor, []);
    sink.(values := sink.values + [ve.value * ve.factor])
  }

  lemma {:induction false} FeedSame(c: Config, s: Sinks, aggs: seq<string>, ve: VE)
    requires forall a :: a in aggs ==> a in c.aggregates && c.aggregates[a].target == None
    requires Distinct(aggs)
    ensures var (s', v) := FeedAggs(c, s, aggs, ve);
            && v == ve
            && forall a :: if a in aggs then (a, ve.key) in s' && s'[(a, ve.key)] == Fed(c, s, a, ve)
                           else ((a, ve.key) in s' <==> (a, ve.key) in s) &&
                                ((a, ve.key) in s ==> s'[(a, ve.key)] == s[(a, ve.key)])
  {
    if aggs != [] {
      FeedSame(c, s, aggs[..|aggs| - 1], ve);
      assert forall a :: a in aggs <==> a in aggs[..|aggs| - 1] || a == aggs[|aggs| - 1];
      assert aggs[|aggs| - 1] !in aggs[..|aggs| - 1];
    }
  }

  function Products(us: seq<VE>): seq<int> { seq(|us|, i requires 0 <= i < |us| => us[i].value * us[i].factor) }

  /** The sink that was fed with the entries: it keeps the factor of the first one. */
  function SinkOf(action: Action, us: seq<VE>): KeySink
    requires us != []
  {
    KeySink(action, us[0].meta, us[0].factor, Products(us))
  }

  /** The sinks of a key: exactly those of its aggregates, each fed with all entries under the key. */
  ghost predicate SinksExact(c: Config, s: Sinks, es: seq<Entry>, k: string) {
    forall a :: SinkExact(c, s, es, k, a)
  }

  ghost predicate SinkExact(c: Config, s: Sinks, es: seq<Entry>, k: string, a: string) {
    if a in c.matches(k) && HasKey(es, k) then
      && a in c.aggregates && (a, k) in s && s[(a, k)] == SinkOf(c.aggregates[a].action, UnderEntries(es, k))
    else (a, k) !in s
  }

  /** The same for sum aggregates and one factor. */
  ghost predicate SinksOk(c: Config, s: Sinks, es: seq<Entry>, k: string, f: Factor) {
    (HasKey(es, k) || EntrySum(es, k) == 0) &&
    forall a :: if a in c.matches(k) && HasKey(es, k) then
                  && (a, k) in s && s[(a, k)].action == Sum && s[(a, k)].factor == f
                  && Total(s[(a, k)].values) == f * EntrySum(es, k)
                else (a, k) !in s
  }

  lemma HasKeySnoc(before: seq<Entry>, e: Entry, k: string)
    ensures UnderEntries(before + [e], k) ==
            if e.ve.key == k then UnderEntries(before, k) + [e.ve] else UnderEntries(before, k)
    ensures EntrySum(before + [e], k) == EntrySum(before, k) + if e.ve.key == k then e.ve.value else 0
  {
    assert (before + [e])[..|before|] == before;
  }

  lemma ProductsSnoc(us: seq<VE>, u: VE)
    ensures Products(us + [u]) == Products(us) + [u.value * u.factor]
    ensures Total(Products(us + [u])) == Total(Products(us)) + u.value * u.factor
  {
    assert Products(us + [u])[..|us|] == Products(us);
  }

  lemma FedExact(c: Config, s: Sinks, before: seq<Entry>, ve: VE, a: string)
    requires SinksExact(c, s, before, ve.key) && a in c.matches(ve.key) && a in c.aggregates
    ensures Fed(c, s, a, ve) == SinkOf(c.aggregates[a].action, UnderEntries(before, ve.key) + [ve])
  {
    hide UnderEntries, Products;
    var us := UnderEntries(before, ve.key);
    ProductsSnoc(us, ve);
    ProductsNone();
    assert SinkExact(c, s, before, ve.key, a);
  }

  lemma ProductsNone()
    ensures Products([]) == [] && Total(Products([])) == 0
  {}

  lemma Wanted(c: Config, k: string)
    requires Valid(c)
    ensures Distinct(c.matches(k)) && forall a :: a in c.matches(k) ==> a in c.aggregates
  {}

  lemma SinksStep(c: Config, s: Sinks, before: seq<Entry>, e: Entry, k: string)
    requires Valid(c) && Untargeted(c, k) && e.aggs == c.matches(e.ve.key) && SinksExact(c, s, before, k)
    ensures SinksExact(c, FeedAggs(c, s, e.aggs, e.ve).0, before + [e], k)
  {
    Wanted(c, e.ve.key);
    HasKeySnoc(before, e, k);
    hide Valid, Distinct, FeedAggs, UnderEntries, Fed, SinkOf;
    var s' := FeedAggs(c, s, e.aggs, e.ve).0;
    if e.ve.key == k {
      FeedSame(c, s, e.aggs, e.ve);
      forall a ensures SinkExact(c, s', before + [e], k, a) {
        assert SinkExact(c, s, before, k, a);
        if a in c.matches(k) { FedExact(c, s, before, e.ve, a); }
      }
    } else {
      FeedOther(c, s, e.aggs, e.ve, k);
      forall a ensures SinkExact(c, s', before + [e], k, a) {
        assert SinkExact(c, s, before, k, a);
      }
    }
  }

  lemma {:induction false} FeedAllExact(c: Config, es: seq<Entry>, k: string)
    requires Valid(c) && Usable(c, es) && Untargeted(c, k) && Filtered(c, es)
    ensures SinksExact(c, FeedAll(c, es), es, k)
  {
    hide FeedAggs, Untargeted, SinksExact;
    if es == [] {
      NoSinks(c, k);
    } else {
      var before, e := es[..|es| - 1], es[|es| - 1];
      assert es == before + [e] && e in es;
      FeedAllExact(c, before, k);
      SinksStep(c, FeedAll(c, before), before, e, k);
    }
  }

  lemma NoSinks(c: Config, k: string)
    ensures SinksExact(c, map[], [], k)
  {}

  lemma Distribute(f: int, a: int, b: int)
    ensures f * (a + b) == f * a + b * f
  {}

  /** With one factor the products are multiples of it. */
  lemma {:induction false} OneScale(es: seq<Entry>, k: string, f: Factor)
    requires forall e :: e in es && e.ve.key == k ==> e.ve.factor == f
    ensures Total(Products(UnderEntries(es, k))) == f * EntrySum(es, k)
    ensures HasKey(es, k) ==> UnderEntries(es, k)[0].factor == f
    ensures !HasKey(es, k) ==> EntrySum(es, k) == 0
  {
    if es == [] {
      ProductsNone();
    } else {
      var before, e := es[..|es| - 1], es[|es| - 1];
      assert es == before + [e] && e in es;
      OneScale(before, k, f);
      HasKeySnoc(before, e, k);
      if e.ve.key == k {
        ProductsSnoc(UnderEntries(before, k), e.ve);
        Distribute(f, EntrySum(before, k), e.ve.value);
      }
    }
  }

  lemma FeedAllOk(c: Config, es: seq<Entry>, k: string, f: Factor)
    requires Valid(c) && Usable(c, es) && Plain(c, k) && Filtered(c, es)
    requires forall e :: e in es && e.ve.key == k ==> e.ve.factor == f
    ensures SinksOk(c, FeedAll(c, es), es, k, f)
  {
    FeedAllExact(c, es, k);
    OneScale(es, k, f);
    hide Total, EntrySum, UnderEntries, FeedAll, Products;
    var s := FeedAll(c, es);
    forall a ensures (a, k) in s <==> a in c.matches(k) && HasKey(es, k) {
      assert SinkExact(c, s, es, k, a);
    }
    forall a | a in c.matches(k) && HasKey(es, k) ensures s[(a, k)] == SinkOf(Sum, UnderEntries(es, k)) {
      assert SinkExact(c, s, es, k, a);
    }
  }

  /** A sum of multiples of the factor is divided exactly, also by Python's rounding division. */
  lemma ExactDivision(f: Factor, n: int)
    ensures FloorDiv(f * n, f) == n
  {
    var d: int := f;
    if d > 0 {
      DivMultiple(d, n);
    } else {
      DivMultiple(-d, n);
      assert -(d * n) == -d * n;
    }
  }

  lemma DivMultiple(d: int, n: int)
    requires d > 0
    ensures d * n / d == n
  {
    QuotientUnique(d, n, d * n / d, d * n % d);
  }

  lemma QuotientUnique(d: int, n: int, q: int, r: int)
    requires d > 0 && d * n == d * q + r && 0 <= r < d
    ensures n == q
  {
    if n > q {
      TimesMonotone(d, q + 1, n);
    } else if n < q {
      TimesMonotone(d, n + 1, q);
    }
  }

  lemma TimesMonotone(d: int, a: int, b: int)
    requires d > 0 && a <= b
    ensures d * a <= d * b
  {}

  // ----- one level -----

  function KeyIds(order: seq<(string, string)>, k: string): set<(string, string)> {
    set x | x in order && x.1 == k
  }

  lemma KeyIdsSnoc(before: seq<(string, string)>, x: (string, string), k: string)
    ensures KeyIds(before + [x], k) == if x.1 == k then KeyIds(before, k) + {x} else KeyIds(before, k)
    ensures x !in before ==> x !in KeyIds(before, k)
  {
    assert forall y :: y in before + [x] <==> y in before || y == x;
  }

  lemma {:induction false} CountIsCard(s: Sinks, order: seq<(string, string)>, k: string)
    requires Distinct(order) && forall x :: x in order ==> x in s
    ensures |Under(Vector(s, order), k)| == |KeyIds(order, k)|
  {
    if order == [] {
      assert KeyIds(order, k) == {};
    } else {
      var before, id := order[..|order| - 1], order[|order| - 1];
      assert forall x :: x in before ==> x in order;
      assert Vector(s, order)[..|before|] == Vector(s, before);
      hide KeyIds, Distinct, SinkValue;
      DistinctInit(order);
      CountIsCard(s, before, k);
      KeyIdsSnoc(before, id, k);
    }
  }

  function IdsOf(aggs: seq<string>, k: string): set<(string, string)> { set a | a in aggs :: (a, k) }

  lemma {:induction false} IdsCard(aggs: seq<string>, k: string)
    requires Distinct(aggs)
    ensures |IdsOf(aggs, k)| == |aggs|
  {
    if aggs != [] {
      var before, a := aggs[..|aggs| - 1], aggs[|aggs| - 1];
      IdsCard(before, k);
      assert aggs == before + [a] && a !in before;
      assert IdsOf(aggs, k) == IdsOf(before, k) + {(a, k)};
    }
  }

  /** Every entry under the key has the value n, so the sum counts them. */
  lemma {:induction false} EqualValues(v: seq<VE>, k: string, n: int)
    requires forall x :: x in v && x.key == k ==> x.value == n
    ensures KeySum(v, k) == |Under(v, k)| * n
  {
    if v != [] {
      var before, x := v[..|v| - 1], v[|v| - 1];
      assert x in v && forall y :: y in before ==> y in v;
      EqualValues(before, k, n);
      OneMore(|Under(before, k)|, n);
    }
  }

  lemma OneMore(m: int, n: int)
    ensures m * n + n == (m + 1) * n
  {}

  lemma SinkValues(c: Config, s: Sinks, es: seq<Entry>, k: string, f: Factor)
    requires SinksOk(c, s, es, k, f)
    ensures forall x :: x in s && x.1 == k ==>
                          SinkValue(s[x]) == EntrySum(es, k) && s[x].factor == f && x.0 in c.matches(k) && HasKey(es, k)
  {
    hide EntrySum, Total, HasKey;
    ExactDivision(f, EntrySum(es, k));
    forall x | x in s && x.1 == k ensures x == (x.0, k) {}
  }

  lemma KeyIdsOf(c: Config, s: Sinks, es: seq<Entry>, order: seq<(string, string)>, k: string, f: Factor)
    requires SinksOk(c, s, es, k, f) && Lists(order, s.Keys)
    ensures KeyIds(order, k) == if HasKey(es, k) then IdsOf(c.matches(k), k) else {}
  {
    hide EntrySum, Total, HasKey;
    forall x: (string, string) | x.1 == k ensures x == (x.0, k) {}
  }

  lemma Times(a: int, b: int, n: int)
    requires a == b || n == 0
    ensures a * n == b * n
  {}

  /** One level: under the key every aggregate of the key yields the sum of the values, and there is
      one entry for each of them. */
  lemma VectorOk(c: Config, s: Sinks, es: seq<Entry>, order: seq<(string, string)>, k: string, f: Factor)
    requires Valid(c) && SinksOk(c, s, es, k, f) && Lists(order, s.Keys)
    ensures var v := Vector(s, order);
            && OneFactor(v, k, f) && KeySum(v, k) == |c.matches(k)| * EntrySum(es, k)
            && (forall x :: x in v && x.key == k ==> x.value == EntrySum(es, k))
            && (VectorHas(v, k) <==> c.matches(k) != [] && HasKey(es, k))
  {
    var v, n := Vector(s, order), EntrySum(es, k);
    SinkValues(c, s, es, k, f);
    CountIsCard(s, order, k);
    KeyIdsOf(c, s, es, order, k, f);
    IdsCard(c.matches(k), k);
    hide EntrySum, HasKey, KeySum, SinkValue, Under;
    Times(|Under(v, k)|, |c.matches(k)|, n);
    hide SinksOk;
    forall x | x in v && x.key == k ensures x.factor == f && x.value == n && c.matches(k) != [] && HasKey(es, k) {
      var i :| 0 <= i < |v| && v[i] == x;
      assert order[i] in s;
    }
    EqualValues(v, k, n);
    if c.matches(k) != [] && HasKey(es, k) {
      var id := (c.matches(k)[0], k);
      assert id in KeyIds(order, k);
      var i :| 0 <= i < |order| && order[i] == id;
      assert v[i].key == k && v[i] in v;
    }
  }

  lemma VectorSnoc(v: seq<VE>, k: string)
    requires v != []
    ensures VectorHas(v, k) <==> VectorHas(v[..|v| - 1], k) || v[|v| - 1].key == k
  {
    assert v == v[..|v| - 1] + [v[|v| - 1]];
  }

  lemma {:induction false} UnderHas(v: seq<VE>, k: string)
    ensures Under(v, k) != [] <==> VectorHas(v, k)
  {
    if v != [] {
      UnderHas(v[..|v| - 1], k);
      VectorSnoc(v, k);
    }
  }

  lemma {:induction false} FilterFrom(c: Config, v: seq<VE>)
    ensures forall e :: e in FilterVector(c, v) ==> e.aggs == c.matches(e.ve.key) && e.ve in v
  {
    if v != [] {
      var before, x := v[..|v| - 1], v[|v| - 1];
      FilterFrom(c, before);
      assert forall y :: y in v <==> y in before || y == x by { assert v == before + [x]; }
    }
  }

  /** Filtering keeps all entries of a key that some aggregate wants. */
  lemma {:induction false} FilterKeeps(c: Config, v: seq<VE>, k: string)
    ensures UnderEntries(FilterVector(c, v), k) == if c.matches(k) == [] then [] else Under(v, k)
    ensures EntrySum(FilterVector(c, v), k) == if c.matches(k) == [] then 0 else KeySum(v, k)
  {
    if v != [] {
      var before, x := v[..|v| - 1], v[|v| - 1];
      FilterKeeps(c, before, k);
      HasKeySnoc(FilterVector(c, before), Entry(c.matches(x.key), x), k);
      hide UnderEntries, EntrySum;
    }
  }

  ghost predicate SourcesHave(srcs: seq<string>, vectors: map<string, seq<VE>>, k: string) {
    exists u :: u in srcs && u in vectors && VectorHas(vectors[u], k)
  }

  lemma {:induction false} EntriesAppend(a: seq<Entry>, b: seq<Entry>, k: string)
    ensures EntrySum(a + b, k) == EntrySum(a, k) + EntrySum(b, k)
    ensures UnderEntries(a + b, k) == UnderEntries(a, k) + UnderEntries(b, k)
  {
    if b == [] {
      assert a + b == a;
    } else {
      assert (a + b)[..|a + b| - 1] == a + b[..|b| - 1];
      EntriesAppend(a, b[..|b| - 1], k);
    }
  }

  /** What is fed for a key: its entries in the vectors of the sources. */
  lemma {:induction false} EntriesExact(c: Config, srcs: seq<string>, vectors: map<string, seq<VE>>, k: string)
    ensures Filtered(c, EntriesOf(c, srcs, vectors))
    ensures UnderEntries(EntriesOf(c, srcs, vectors), k) ==
            if c.matches(k) == [] then [] else UnderSources(srcs, vectors, k)
    ensures EntrySum(EntriesOf(c, srcs, vectors), k) == if c.matches(k) == [] then 0 else HostSum(srcs, vectors, k)
    ensures UnderSources(srcs, vectors, k) != [] <==> SourcesHave(srcs, vectors, k)
  {
    if srcs != [] {
      var before, u := srcs[..|srcs| - 1], srcs[|srcs| - 1];
      assert forall x :: x in srcs <==> x in before || x == u by { assert srcs == before + [u]; }
      hide VectorHas, FilterVector, Under;
      EntriesExact(c, before, vectors, k);
      if u in vectors {
        FilterFrom(c, vectors[u]);
        FilterKeeps(c, vectors[u], k);
        UnderHas(vectors[u], k);
        EntriesAppend(EntriesOf(c, before, vectors), FilterVector(c, vectors[u]), k);
      }
    }
  }

  lemma {:induction false} EntriesFactor(c: Config, srcs: seq<string>, vectors: map<string, seq<VE>>, k: string,
                                         f: Factor)
    requires forall u :: u in srcs && u in vectors ==> OneFactor(vectors[u], k, f)
    ensures forall e :: e in EntriesOf(c, srcs, vectors) && e.ve.key == k ==> e.ve.factor == f
  {
    if srcs != [] {
      var before, u := srcs[..|srcs| - 1], srcs[|srcs| - 1];
      assert forall x :: x in srcs <==> x in before || x == u by { assert srcs == before + [u]; }
      EntriesFactor(c, before, vectors, k, f);
      if u in vectors { FilterFrom(c, vectors[u]); }
    }
  }

  /** _create_aggregates, for a key without target keys, whatever the factors: its aggregates yield one
      entry each, of the products divided by the factor of the entry that was fed first. */
  lemma LevelValues(c: Config, srcs: seq<string>, vectors: map<string, seq<VE>>, v: seq<VE>, k: string)
    requires Valid(c) && Untargeted(c, k) && IsAggregate(c, srcs, vectors, v)
    ensures var us := UnderSources(srcs, vectors, k);
            && (VectorHas(v, k) <==> c.matches(k) != [] && us != [])
            && forall x :: x in v && x.key == k ==>
                             us != [] && exists a :: a in c.matches(k) && ValueOf(c, a, us, x)
  {
    var es, us := EntriesOf(c, srcs, vectors), UnderSources(srcs, vectors, k);
    EntriesExact(c, srcs, vectors, k);
    FeedAllExact(c, es, k);
    hide EntriesOf, UnderSources, UnderEntries, FeedAll, SinkValue, SinkOf, Products, ValueOf;
    var s := FeedAll(c, es);
    var order: seq<(string, string)> :| Lists(order, s.Keys) && v == Vector(s, order);
    forall x | x in v && x.key == k
      ensures us != [] && exists a :: a in c.matches(k) && ValueOf(c, a, us, x)
    {
      var i :| 0 <= i < |v| && v[i] == x;
      assert order[i] in s && order[i] == (order[i].0, k);
      assert SinkExact(c, s, es, k, order[i].0);
      SinkYields(c, order[i].0, us, x);
    }
    if c.matches(k) != [] && us != [] {
      assert SinkExact(c, s, es, k, c.matches(k)[0]);
      assert (c.matches(k)[0], k) in order;
      var i :| 0 <= i < |order| && order[i] == (c.matches(k)[0], k);
      assert v[i].key == k && v[i] in v;
    }
  }

  lemma SinkYields(c: Config, a: string, us: seq<VE>, x: VE)
    requires us != [] && a in c.aggregates
    requires var s := SinkOf(c.aggregates[a].action, us);
             x.meta == s.meta && x.factor == s.factor && x.value == SinkValue(s)
    ensures ValueOf(c, a, us, x)
  {
    assert |Products(us)| == |us|;
    hide FloorDiv, Total, MeanOf, Products;
  }

  /** x is what aggregate a yields for the entries us. */
  ghost predicate ValueOf(c: Config, a: string, us: seq<VE>, x: VE)
    requires us != []
  {
    && a in c.aggregates && x.meta == us[0].meta && x.factor == us[0].factor
    && match c.aggregates[a].action
       case Sum => x.value == FloorDiv(Total(Products(us)), us[0].factor)
       case Mean => x.value == MeanOf(Products(us), us[0].factor)
       case OtherAction => x.value == 0
  }

  /** _create_aggregates, for a key in sum aggregates: each of them yields the sum over the sources. */
  lemma LevelExact(c: Config, srcs: seq<string>, vectors: map<string, seq<VE>>, v: seq<VE>, k: string, f: Factor)
    requires Valid(c) && Plain(c, k) && IsAggregate(c, srcs, vectors, v)
    requires forall u :: u in srcs && u in vectors ==> OneFactor(vectors[u], k, f)
    ensures OneFactor(v, k, f) && KeySum(v, k) == |c.matches(k)| * HostSum(srcs, vectors, k)
    ensures forall x :: x in v && x.key == k ==> x.value == HostSum(srcs, vectors, k)
    ensures VectorHas(v, k) <==> c.matches(k) != [] && SourcesHave(srcs, vectors, k)
  {
    var es := EntriesOf(c, srcs, vectors);
    EntriesExact(c, srcs, vectors, k);
    EntriesFactor(c, srcs, vectors, k, f);
    hide HostSum, EntrySum, Plain, Valid, SourcesHave, VectorHas, EntriesOf, KeySum, Lists, FeedAll, UnderEntries,
         UnderSources;
    FeedAllOk(c, es, k, f);
    var order :| Lists(order, FeedAll(c, es).Keys) && v == Vector(FeedAll(c, es), order);
    VectorOk(c, FeedAll(c, es), es, order, k, f);
    Times(|c.matches(k)|, |c.matches(k)|, EntrySum(es, k));
  }

  /** The product that a sum aggregate passes on is that of its sources exactly if the first factor
      divides it; the division rounds down otherwise. */
  lemma ProductKept(c: Config, srcs: seq<string>, vectors: map<string, seq<VE>>, v: seq<VE>, k: string, x: VE)
    requires Valid(c) && Plain(c, k) && IsAggregate(c, srcs, vectors, v) && x in v && x.key == k
    ensures var us := UnderSources(srcs, vectors, k);
            && us != [] && x.factor == us[0].factor && x.value == FloorDiv(Total(Products(us)), us[0].factor)
            && (x.value * x.factor == Total(Products(us)) <==> exists n: int :: Total(Products(us)) == us[0].factor * n)
  {
    LevelValues(c, srcs, vectors, v, k);
    hide IsAggregate, UnderSources, Products, Total, Valid;
    var us := UnderSources(srcs, vectors, k);
    var t, f := Total(Products(us)), us[0].factor;
    if n: int :| t == f * n {
      ExactDivision(f, n);
    }
    assert x.value * x.factor == t ==> t == f * x.value;
  }

  // ----- target keys -----

  /** The entries that aggregate a wants, in the order they are fed. */
  function WantedBy(es: seq<Entry>, a: string): seq<VE> {
    if es == [] then []
    else
      var before, e := WantedBy(es[..|es| - 1], a), es[|es| - 1];
      if a in e.aggs then before + [e.ve] else before
  }

  /** An aggregate with a target key has this one sink only, fed with everything it wants. */
  ghost predicate TargetExact(c: Config, s: Sinks, a: string, t: string, us: seq<VE>)
    requires a in c.aggregates
  {
    && (forall k :: (a, k) in s ==> k == t)
    && ((a, t) in s <==> us != [])
    && ((a, t) in s ==> s[(a, t)].values == Products(us) && s[(a, t)].factor == us[0].factor &&
                        s[(a, t)].meta == us[0].meta && s[(a, t)].action == c.aggregates[a].action)
  }

  /** Feeding never changes anything but the key of an entry. */
  lemma {:induction false} FeedKeepsValue(c: Config, s: Sinks, aggs: seq<string>, ve: VE)
    requires forall a :: a in aggs ==> a in c.aggregates
    ensures var v := FeedAggs(c, s, aggs, ve).1; v == ve.(key := v.key)
  {
    if aggs != [] { FeedKeepsValue(c, s, aggs[..|aggs| - 1], ve); }
  }

  lemma {:induction false} FeedTarget(c: Config, s: Sinks, aggs: seq<string>, ve: VE, a: string, t: string, us: seq<VE>)
    requires (forall x :: x in aggs ==> x in c.aggregates) && Distinct(aggs)
    requires a in c.aggregates && c.aggregates[a].target == Some(t) && TargetExact(c, s, a, t, us)
    ensures TargetExact(c, FeedAggs(c, s, aggs, ve).0, a, t, if a in aggs then us + [ve] else us)
  {
    if aggs != [] {
      var before, b := aggs[..|aggs| - 1], aggs[|aggs| - 1];
      DistinctInit(aggs);
      FeedTarget(c, s, before, ve, a, t, us);
      FeedKeepsValue(c, s, before, ve);
      var (s', v) := FeedAggs(c, s, before, ve);
      if b == a {
        assert a !in before;
        FeedToTarget(c, s', a, v, t, us, ve);
      } else {
        FeedElsewhere(c, s', b, v, a, t, if a in before then us + [ve] else us);
      }
      hide FeedOne, TargetExact;
      assert a in aggs <==> a in before || a == b;
    }
  }

  lemma FeedToTarget(c: Config, s: Sinks, a: string, v: VE, t: string, us: seq<VE>, ve: VE)
    requires a in c.aggregates && c.aggregates[a].target == Some(t) && TargetExact(c, s, a, t, us)
    requires v == ve.(key := v.key)
    ensures TargetExact(c, FeedOne(c, s, a, v).0, a, t, us + [ve])
  {
    ProductsSnoc(us, ve);
    ProductsNone();
    hide Products;
  }

  lemma FeedElsewhere(c: Config, s: Sinks, b: string, v: VE, a: string, t: string, us: seq<VE>)
    requires b in c.aggregates && a in c.aggregates && b != a && TargetExact(c, s, a, t, us)
    ensures TargetExact(c, FeedOne(c, s, b, v).0, a, t, us)
  {}

  /** _create_aggregates for an aggregate with a target key: all that it wants, under whatever key and
      whoever renamed it before, is collected under the target key, and it yields nothing else. */
  lemma {:induction false} TargetCollects(c: Config, es: seq<Entry>, a: string, t: string)
    requires Usable(c, es) && (forall e :: e in es ==> Distinct(e.aggs))
    requires a in c.aggregates && c.aggregates[a].target == Some(t)
    ensures TargetExact(c, FeedAll(c, es), a, t, WantedBy(es, a))
  {
    if es != [] {
      var before, e := es[..|es| - 1], es[|es| - 1];
      assert es == before + [e] && e in es;
      TargetCollects(c, before, a, t);
      FeedTarget(c, FeedAll(c, before), e.aggs, e.ve, a, t, WantedBy(before, a));
      hide FeedAggs, TargetExact;
    }
  }

  // ----- two levels -----

  function GroupSum(groups: seq<seq<VE>>, k: string): int {
    if groups == [] then 0 else GroupSum(groups[..|groups| - 1], k) + KeySum(groups[|groups| - 1], k)
  }

  lemma {:induction false} SumOfMeta(srcs: seq<string>, meta: map<string, seq<VE>>, groups: seq<seq<VE>>, k: string)
    requires |srcs| == |groups| && forall i :: 0 <= i < |srcs| ==> srcs[i] in meta && meta[srcs[i]] == groups[i]
    ensures HostSum(srcs, meta, k) == GroupSum(groups, k)
  {
    if srcs != [] { SumOfMeta(srcs[..|srcs| - 1], meta, groups[..|srcs| - 1], k); }
  }

  lemma {:induction false} MetaLookup(parts: seq<HostMatch.Part>, groups: seq<seq<VE>>, i: nat)
    requires |parts| == |groups| && i < |parts|
    requires forall i, j :: 0 <= i < j < |parts| ==> parts[i].uuid != parts[j].uuid
    ensures parts[i].uuid in MetaOf(parts, groups) && MetaOf(parts, groups)[parts[i].uuid] == groups[i]
  {
    if i < |parts| - 1 { MetaLookup(parts[..|parts| - 1], groups[..|parts| - 1], i); }
  }

  lemma {:induction false} HostSumAppend(a: seq<string>, b: seq<string>, vectors: map<string, seq<VE>>, k: string)
    ensures HostSum(a + b, vectors, k) == HostSum(a, vectors, k) + HostSum(b, vectors, k)
  {
    if b == [] {
      assert a + b == a;
    } else {
      assert (a + b)[..|a + b| - 1] == a + b[..|b| - 1];
      HostSumAppend(a, b[..|b| - 1], vectors, k);
    }
  }

  lemma {:induction false} HostSumPermuted(a: seq<string>, b: seq<string>, vectors: map<string, seq<VE>>, k: string)
    requires multiset(a) == multiset(b)
    ensures HostSum(a, vectors, k) == HostSum(b, vectors, k)
  {
    if a == [] {
      assert |b| == |multiset(b)| == 0;
    } else {
      var init, u := a[..|a| - 1], a[|a| - 1];
      assert a == init + [u];
      assert u in multiset(b) by { assert u in a; }
      var i :| 0 <= i < |b| && b[i] == u;
      var left, right := b[..i], b[i + 1..];
      assert b == left + [u] + right;
      WithoutOne(init, left, right, u);
      hide HostSum;
      HostSumPermuted(init, left + right, vectors, k);
      HostSumAppend(left, right, vectors, k);
      HostSumAppend(left + [u], right, vectors, k);
      HostSumAppend(left, [u], vectors, k);
      HostSumAppend(init, [u], vectors, k);
    }
  }

  lemma WithoutOne(init: seq<string>, left: seq<string>, right: seq<string>, u: string)
    requires multiset(init + [u]) == multiset(left + [u] + right)
    ensures multiset(init) == multiset(left + right)
  {
    var ml, mr := multiset(left), multiset(right);
    assert multiset(init + [u]) == multiset(init) + multiset{u};
    assert multiset(left + [u] + right) == ml + multiset{u} + mr;
    assert multiset(left + right) == ml + mr;
    forall x ensures multiset(init)[x] == (ml + mr)[x] {
      assert (multiset(init) + multiset{u})[x] == (ml + multiset{u} + mr)[x];
    }
  }

  ghost predicate GroupsHave(groups: seq<seq<VE>>, k: string) {
    exists i :: 0 <= i < |groups| && VectorHas(groups[i], k)
  }

  /** Group sums add up: every group sums up its own hosts, once per aggregate of the key. */
  lemma {:induction false} GroupsTotal(c: Config, parts: seq<HostMatch.Part>, vectors: map<string, seq<VE>>,
                                       groups: seq<seq<VE>>, k: string, f: Factor)
    requires Valid(c) && Plain(c, k) && |groups| == |parts|
    requires forall i :: 0 <= i < |parts| ==> IsAggregate(c, parts[i].members, vectors, groups[i])
    requires forall u :: u in vectors ==> OneFactor(vectors[u], k, f)
    ensures GroupSum(groups, k) == |c.matches(k)| * HostSum(HostMatch.Members(parts), vectors, k)
    ensures forall i :: 0 <= i < |groups| ==> OneFactor(groups[i], k, f)
    ensures GroupsHave(groups, k) <==> c.matches(k) != [] && SourcesHave(HostMatch.Members(parts), vectors, k)
  {
    hide IsAggregate, OneFactor, KeySum, VectorHas, Plain, Valid;
    if parts != [] {
      var n := |parts| - 1;
      var before, last := parts[..n], parts[n];
      GroupsTotal(c, before, vectors, groups[..n], k, f);
      LevelExact(c, last.members, vectors, groups[n], k, f);
      var all := HostMatch.Members(before);
      assert HostMatch.Members(parts) == all + last.members;
      HostSumAppend(all, last.members, vectors, k);
      DistributeTwo(|c.matches(k)|, HostSum(all, vectors, k), HostSum(last.members, vectors, k));
      SourcesAppend(all, last.members, vectors, k);
      GroupsSnoc(groups, k);
    }
  }

  lemma DistributeTwo(m: int, a: int, b: int)
    ensures m * (a + b) == m * a + m * b
  {}

  lemma SourcesAppend(a: seq<string>, b: seq<string>, vectors: map<string, seq<VE>>, k: string)
    ensures SourcesHave(a + b, vectors, k) <==> SourcesHave(a, vectors, k) || SourcesHave(b, vectors, k)
  {
    hide VectorHas;
    assert forall u :: u in a + b <==> u in a || u in b;
  }

  lemma GroupsSnoc(groups: seq<seq<VE>>, k: string)
    requires groups != []
    ensures GroupsHave(groups, k) <==> GroupsHave(groups[..|groups| - 1], k) || VectorHas(groups[|groups| - 1], k)
  {
    hide VectorHas;
    var before := groups[..|groups| - 1];
    if i :| 0 <= i < |groups| && VectorHas(groups[i], k) {
      if i < |before| { assert before[i] == groups[i]; }
    }
    if i :| 0 <= i < |before| && VectorHas(before[i], k) {
      assert groups[i] == before[i];
    }
  }

  lemma MetaHas(parts: seq<HostMatch.Part>, groups: seq<seq<VE>>, k: string)
    requires |parts| == |groups|
    requires forall i, j :: 0 <= i < j < |parts| ==> parts[i].uuid != parts[j].uuid
    ensures var srcs, meta := Uuids(parts), MetaOf(parts, groups);
            && (forall i :: 0 <= i < |srcs| ==> srcs[i] in meta && meta[srcs[i]] == groups[i])
            && (SourcesHave(srcs, meta, k) <==> GroupsHave(groups, k))
  {
    hide VectorHas, MetaOf;
    var srcs, meta := Uuids(parts), MetaOf(parts, groups);
    forall i | 0 <= i < |srcs| ensures srcs[i] in meta && meta[srcs[i]] == groups[i] {
      MetaLookup(parts, groups, i);
    }
    if SourcesHave(srcs, meta, k) {
      var u :| u in srcs && u in meta && VectorHas(meta[u], k);
      var i :| 0 <= i < |srcs| && srcs[i] == u;
      assert VectorHas(groups[i], k);
    }
    if i :| 0 <= i < |groups| && VectorHas(groups[i], k) {
      assert srcs[i] in srcs && VectorHas(meta[srcs[i]], k);
    }
  }

  lemma ClusterOfMembers(c: Config, parts: seq<HostMatch.Part>, vectors: map<string, seq<VE>>, groups: seq<seq<VE>>,
                         sys: seq<VE>, k: string, f: Factor)
    requires Valid(c) && Plain(c, k) && IsBuilt(c, parts, vectors, groups, sys)
    requires forall i, j :: 0 <= i < j < |parts| ==> parts[i].uuid != parts[j].uuid
    requires forall u :: u in vectors ==> OneFactor(vectors[u], k, f)
    ensures var all := HostMatch.Members(parts);
            && (forall x :: x in sys && x.key == k ==>
                              x.factor == f && x.value == |c.matches(k)| * HostSum(all, vectors, k))
            && (VectorHas(sys, k) <==> c.matches(k) != [] && SourcesHave(all, vectors, k))
  {
    hide IsAggregate, KeySum, Plain, Valid, SourcesHave, GroupsHave, HostSum;
    if parts != [] {
      GroupsTotal(c, parts, vectors, groups, k, f);
      MetaHas(parts, groups, k);
      SumOfMeta(Uuids(parts), MetaOf(parts, groups), groups, k);
      hide MetaOf, HostMatch.Members;
      var srcs, meta := Uuids(parts), MetaOf(parts, groups);
      forall u | u in srcs && u in meta ensures OneFactor(meta[u], k, f) {
        var i :| 0 <= i < |srcs| && srcs[i] == u;
      }
      LevelExact(c, srcs, meta, sys, k, f);
    } else {
      NoSources(vectors, k);
    }
  }

  lemma NoSources(vectors: map<string, seq<VE>>, k: string)
    ensures HostMatch.Members([]) == [] && !SourcesHave([], vectors, k)
  {}

  /** The cluster-wide value of a key, for any list of the live matched hosts: their sum, exactly and
      whatever the sign of the factor, once for every aggregate that the key belongs to. */
  lemma ClusterValue(c: Config, parts: seq<HostMatch.Part>, vectors: map<string, seq<VE>>, groups: seq<seq<VE>>,
                     sys: seq<VE>, k: string, f: Factor, all: seq<string>, valid: set<string>,
                     groupOf: map<string, string>, names: map<string, string>)
    requires Valid(c) && Plain(c, k) && IsBuilt(c, parts, vectors, groups, sys)
    requires HostMatch.Partition(parts, valid, groupOf, names) && multiset(all) == multiset(valid)
    requires forall u :: u in vectors ==> OneFactor(vectors[u], k, f)
    ensures forall x :: x in sys && x.key == k ==>
                          x.factor == f && x.value == |c.matches(k)| * HostSum(all, vectors, k)
    ensures VectorHas(sys, k) <==> c.matches(k) != [] && SourcesHave(all, vectors, k)
  {
    hide IsBuilt, Plain, Valid, OneFactor, VectorHas;
    ClusterOfMembers(c, parts, vectors, groups, sys, k, f);
    HostMatch.PartitionExact(parts, valid, groupOf, names);
    var members := HostMatch.Members(parts);
    HostSumPermuted(all, members, vectors, k);
    assert forall u :: u in all <==> u in multiset(all);
    assert forall u :: u in members <==> u in multiset(members);
  }

  lemma {:induction false} SomeoneHasIt(srcs: seq<string>, vectors: map<string, seq<VE>>, k: string)
    requires HostSum(srcs, vectors, k) != 0
    ensures SourcesHave(srcs, vectors, k)
  {
    hide VectorHas;
    var before, u := srcs[..|srcs| - 1], srcs[|srcs| - 1];
    if u in vectors && KeySum(vectors[u], k) != 0 {
      EntryHasIt(vectors[u], k);
    } else {
      SomeoneHasIt(before, vectors, k);
      var w :| w in before && w in vectors && VectorHas(vectors[w], k);
      assert w in srcs;
    }
  }

  lemma {:induction false} EntryHasIt(v: seq<VE>, k: string)
    requires KeySum(v, k) != 0
    ensures VectorHas(v, k)
  {
    if v[|v| - 1].key != k {
      EntryHasIt(v[..|v| - 1], k);
      var x :| x in v[..|v| - 1] && x.key == k;
      assert x in v;
    }
  }

  /** The cluster-wide value is the sum over the hosts exactly if the key belongs to one aggregate
      only, or the sum is zero: a key in two aggregates is summed up twice on the second level. */
  lemma ClusterExact(c: Config, parts: seq<HostMatch.Part>, vectors: map<string, seq<VE>>, groups: seq<seq<VE>>,
                     sys: seq<VE>, k: string, f: Factor, all: seq<string>, valid: set<string>,
                     groupOf: map<string, string>, names: map<string, string>)
    requires Valid(c) && Plain(c, k) && IsBuilt(c, parts, vectors, groups, sys)
    requires HostMatch.Partition(parts, valid, groupOf, names) && multiset(all) == multiset(valid)
    requires forall u :: u in vectors ==> OneFactor(vectors[u], k, f)
    ensures (forall x :: x in sys && x.key == k ==> x.value == HostSum(all, vectors, k))
            <==> |c.matches(k)| <= 1 || HostSum(all, vectors, k) == 0
  {
    ClusterValue(c, parts, vectors, groups, sys, k, f, all, valid, groupOf, names);
    hide IsBuilt, Plain, Valid, OneFactor, HostSum, SourcesHave;
    var m, h := |c.matches(k)|, HostSum(all, vectors, k);
    if m <= 1 || h == 0 {
      OnceOrNothing(m, h);
    } else {
      SomeoneHasIt(all, vectors, k);
      var x :| x in sys && x.key == k;
      MoreThanOnce(m, h);
    }
  }

  lemma OnceOrNothing(m: int, h: int)
    requires m == 1 || h == 0 || m == 0
    ensures m == 0 || m * h == h
  {}

  lemma MoreThanOnce(m: int, h: int)
    requires m > 1 && h != 0
    ensures m * h != h
  {
    if h > 0 { TimesMonotone(h, 2, m); } else { TimesMonotone(-h, 2, m); }
  }

  // ----- inputs that show the difference -----

  function TwoSums(): Config {
    Config(map["a" := Aggregate(Sum, None), "b" := Aggregate(Sum, None)], k => if k == "load" then ["a", "b"] else [])
  }

  function OneSum(): Config {
    Config(map["a" := Aggregate(Sum, None)], k => if k == "load" then ["a"] else [])
  }

  lemma TwoSumsPlain()
    ensures Valid(TwoSums()) && Plain(TwoSums(), "load") && |TwoSums().matches("load")| == 2
  {}

  lemma OneHost(ve: VE)
    requires ve == VE("", "load", 1, 1)
    ensures var vectors := map["h" := [ve]];
            && HostSum(["h"], vectors, "load") == 1 && SourcesHave(["h"], vectors, "load")
            && OneFactor(vectors["h"], "load", 1)
    ensures HostMatch.Partition([HostMatch.Part("g", "g", ["h"])], {"h"}, map["h" := "g"], map["g" := "g"])
  {
    assert KeySum([ve], "load") == 1 && ve in [ve] && "h" in ["h"];
    var parts := [HostMatch.Part("g", "g", ["h"])];
    assert HostMatch.PartOk(parts[0], {"h"}, map["h" := "g"], map["g" := "g"]) && parts[0].uuid == "g";
  }

  /** One host with a load of 1, and two aggregates for it: the load of the cluster is 2. */
  method DoubleCounted() returns (groups: seq<seq<VE>>, sys: seq<VE>)
    ensures var vectors := map["h" := [VE("", "load", 1, 1)]];
            && IsBuilt(TwoSums(), [HostMatch.Part("g", "g", ["h"])], vectors, groups, sys)
            && HostSum(["h"], vectors, "load") == 1
    ensures VectorHas(sys, "load") && forall x :: x in sys && x.key == "load" ==> x.value == 2
  {
    hide *;
    var ve := VE("", "load", 1, 1);
    var parts, vectors := [HostMatch.Part("g", "g", ["h"])], map["h" := [ve]];
    TwoSumsPlain();
    groups, sys := BuildVectors(TwoSums(), parts, vectors);
    OneHost(ve);
    ClusterValue(TwoSums(), parts, vectors, groups, sys, "load", 1, ["h"], {"h"}, map["h" := "g"], map["g" := "g"]);
  }

  lemma OneSumPlain()
    ensures Valid(OneSum()) && Untargeted(OneSum(), "load") && OneSum().matches("load") == ["a"] &&
            OneSum().aggregates["a"].action == Sum
  {}

  lemma UnderOne(x: VE)
    ensures Under([x], x.key) == [x]
  {
    assert [x][..0] == [];
  }

  lemma UnderTwo(vectors: map<string, seq<VE>>, x: VE, y: VE)
    requires "h1" in vectors && vectors["h1"] == [x] && "h2" in vectors && vectors["h2"] == [y] &&
             x.key == y.key == "load"
    ensures UnderSources(["h1", "h2"], vectors, "load") == [x, y]
  {
    hide Under;
    UnderOne(x);
    UnderOne(y);
    assert ["h1", "h2"][..1] == ["h1"] && ["h1"][..0] == [];
    assert UnderSources(["h1"], vectors, "load") == [x];
  }

  lemma FiveByTwo(x: VE, y: VE)
    requires x == VE("", "load", 1, 2) && y == VE("", "load", 1, 3)
    ensures Total(Products([x, y])) == 5 && SinkValue(SinkOf(Sum, [x, y])) == 2
  {
    assert Products([x, y]) == [2, 3] && [2, 3][..1] == [2];
    assert Total([2]) == 2 && Total([2, 3]) == 5;
  }

  /** Two hosts with a load of 1 in twos and in threes: the sum passes on 2 in twos, 4 of 5. */
  method ProductLost() returns (v: seq<VE>)
    ensures var vectors := map["h1" := [VE("", "load", 1, 2)], "h2" := [VE("", "load", 1, 3)]];
            && IsAggregate(OneSum(), ["h1", "h2"], vectors, v)
            && Total(Products(UnderSources(["h1", "h2"], vectors, "load"))) == 5
    ensures VectorHas(v, "load") && forall x :: x in v && x.key == "load" ==> x.value == 2 && x.factor == 2
  {
    hide Valid, Untargeted, IsAggregate, UnderSources, Products, Total, SinkValue, SinkOf, OneSum, VectorHas;
    var one, two := VE("", "load", 1, 2), VE("", "load", 1, 3);
    var vectors := map["h1" := [one], "h2" := [two]];
    OneSumPlain();
    v := CreateAggregates(OneSum(), ["h1", "h2"], vectors);
    UnderTwo(vectors, one, two);
    FiveByTwo(one, two);
    LevelValues(OneSum(), ["h1", "h2"], vectors, v, "load");
  }
}
