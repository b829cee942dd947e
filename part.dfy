/**
  The `Part` view of cofactr/odm/part.py: projections of a product record's
  statements and offer groups.

  `find_preferred` and `mainsnak_to_str` live in modules that are not part of
  this model; they are the two functions of a `Helpers` value. The `Offer`
  class is represented by the arguments its constructor receives.
 */
module Parts {
  import opened Json
  import opened PyInt

  /** `find_preferred` (pick the preferred statement) and `mainsnak_to_str` (render one). */
  datatype Helpers = Helpers(findPreferred: Value -> Value, mainsnakToStr: Value -> Value)

  /** An offer group of a product record: a seller and that seller's offers. */
  datatype OfferGroup = OfferGroup(seller: Value, offers: seq<Value>)

  /** A part: its id, its statements (a dict of property name to statements) and its offer groups. */
  datatype Part = Part(id: string, statements: Value, offerGroups: Option<seq<OfferGroup>>)

  /** `Offer(part=..., offer=..., seller=...)`. */
  datatype Offer = Offer(part: Part, offer: Value, seller: Value)

  /** The lambdas of `TYPE_TO_VALUE_ACCESSOR`, and `identity` for every other datatype. */
  datatype Accessor =
    | ValueField      // {"value": v["value"]}
    | MonolingualText // {"value": v["value"]["text"]}
    | Quantity        // {"value": v["amount"], "unit": v["unit"]}
    | Identity

  /** `TYPE_TO_VALUE_ACCESSOR`. */
  const TypeToValueAccessor: map<string, Accessor> := map[
    "boolean" := ValueField,
    "external_id" := ValueField,
    "monolingual_text" := MonolingualText,
    "quantity" := Quantity,
    "url" := ValueField,
    "time" := ValueField
  ]

  /**
    `TYPE_TO_VALUE_ACCESSOR.get(datatype, identity)`. The keys are strings, so a
    value of any other hashable kind falls back to `identity`; a list or a dict
    cannot be hashed and raises `TypeError`.
   */
  function AccessorFor(kind: Value): (r: Result<Accessor>)
    ensures r.Err? <==> kind.Arr? || kind.Obj?
    ensures r.Err? ==> r.error == TypeError
    ensures r.Ok? && r.value != Identity <==> kind.Str? && kind.s in TypeToValueAccessor
  {
    match kind
    case Arr(_) => Err(TypeError)
    case Obj(_) => Err(TypeError)
    case Str(s) => Ok(if s in TypeToValueAccessor then TypeToValueAccessor[s] else Identity)
    case _ => Ok(Identity)
  }

  /** Applying an accessor to a `datavalue`; the dict displays evaluate their items in order. */
  function Access(a: Accessor, v: Value): (r: Result<Value>)
    ensures a == Identity ==> r == Ok(v)
    ensures a != Identity && r.Ok? ==> r.value.Obj? && r.value.fields != [] && r.value.fields[0].0 == "value"
    ensures r.Err? ==> a != Identity && (r.error == KeyError || r.error == TypeError)
  {
    match a
    case ValueField =>
      var x :- Lookup(v, "value");
      Ok(Obj([("value", x)]))
    case MonolingualText =>
      var text :- Lookup(v, "value");
      var x :- Lookup(text, "text");
      Ok(Obj([("value", x)]))
    case Quantity =>
      var amount :- Lookup(v, "amount");
      var unit :- Lookup(v, "unit");
      Ok(Obj([("value", amount), ("unit", unit)]))
    case Identity => Ok(v)
  }

  /**
    `spec_value(mainsnak)`: look up `datatype`, choose the accessor, look up
    `datavalue` and apply the accessor to it.
   */
  function SpecValue(mainsnak: Value): (r: Result<Value>)
    ensures r.Ok? ==> Lookup(mainsnak, "datatype").Ok? && Lookup(mainsnak, "datavalue").Ok?
    ensures Lookup(mainsnak, "datatype").Err? ==> r == Lookup(mainsnak, "datatype")
  {
    var kind :- Lookup(mainsnak, "datatype");
    var accessor :- AccessorFor(kind);
    var datavalue :- Lookup(mainsnak, "datavalue");
    Access(accessor, datavalue)
  }

  /** A mainsnak with datatype `dt` and datavalue `dv`. */
  predicate Snak(mainsnak: Value, dt: string, dv: Value)
  {
    Lookup(mainsnak, "datatype") == Ok(Str(dt)) && Lookup(mainsnak, "datavalue") == Ok(dv)
  }

  /** A quantity flattens to its amount and unit, in that order. */
  lemma SpecValueQuantity(mainsnak: Value, dv: Value)
    requires Snak(mainsnak, "quantity", dv)
    ensures Lookup(dv, "amount").Err? ==> SpecValue(mainsnak) == Lookup(dv, "amount")
    ensures Lookup(dv, "amount").Ok? && Lookup(dv, "unit").Err? ==> SpecValue(mainsnak) == Lookup(dv, "unit")
    ensures Lookup(dv, "amount").Ok? && Lookup(dv, "unit").Ok? ==>
              SpecValue(mainsnak)
              == Ok(Obj([("value", Lookup(dv, "amount").value), ("unit", Lookup(dv, "unit").value)]))
  {
    assert TypeToValueAccessor["quantity"] == Quantity;
    assert AccessorFor(Str("quantity")) == Ok(Quantity);
  }

  /** A monolingual text flattens to its text. */
  lemma SpecValueMonolingualText(mainsnak: Value, dv: Value)
    requires Snak(mainsnak, "monolingual_text", dv)
    ensures Lookup(dv, "value").Err? ==> SpecValue(mainsnak) == Lookup(dv, "value")
    ensures Lookup(dv, "value").Ok? ==>
              SpecValue(mainsnak) == (match Lookup(Lookup(dv, "value").value, "text")
                                      case Ok(text) => Ok(Obj([("value", text)]))
                                      case Err(e) => Err(e))
  {
    assert TypeToValueAccessor["monolingual_text"] == MonolingualText;
    assert AccessorFor(Str("monolingual_text")) == Ok(MonolingualText);
  }

  /** Booleans, external ids, URLs and times flatten to their `value`. */
  lemma SpecValuePlain(mainsnak: Value, dt: string, dv: Value)
    requires dt in {"boolean", "external_id", "url", "time"}
    requires Snak(mainsnak, dt, dv)
    ensures SpecValue(mainsnak) == (match Lookup(dv, "value")
                                    case Ok(x) => Ok(Obj([("value", x)]))
                                    case Err(e) => Err(e))
  {
    PlainAccessor(dt);
    assert SpecValue(mainsnak) == Access(ValueField, dv);
  }

  lemma PlainAccessor(dt: string)
    requires dt in {"boolean", "external_id", "url", "time"}
    ensures AccessorFor(Str(dt)) == Ok(ValueField)
  {
    assert TypeToValueAccessor[dt] == ValueField;
  }

  /** Any other datatype string passes the datavalue through unchanged. */
  lemma SpecValueOther(mainsnak: Value, dt: string, dv: Value)
    requires dt !in TypeToValueAccessor
    requires Snak(mainsnak, dt, dv)
    ensures SpecValue(mainsnak) == Ok(dv)
  {
    assert AccessorFor(Str(dt)) == Ok(Identity);
  }

  /** `d[k] = v` on a dict: an existing key keeps its place, a new key goes last. */
  function Put(fields: seq<(string, Value)>, k: string, v: Value): seq<(string, Value)>
  {
    if fields == [] then [(k, v)]
    else if fields[0].0 == k then [(k, v)] + fields[1..]
    else [fields[0]] + Put(fields[1..], k, v)
  }

  /** After `d[k] = v`, `k` reads `v` and every other key reads what it read before. */
  lemma {:induction false} PutGet(fields: seq<(string, Value)>, k: string, v: Value, x: string)
    ensures Get(Put(fields, k, v), x) == if x == k then Some(v) else Get(fields, x)
  {
    if fields != [] && fields[0].0 != k {
      PutGet(fields[1..], k, v, x);
    }
  }

  /** `d[k] = v` never moves a key that is already there. */
  lemma PutKeepsFirst(fields: seq<(string, Value)>, k: string, v: Value)
    requires fields != []
    ensures Put(fields, k, v) != [] && Put(fields, k, v)[0].0 == fields[0].0
  {
  }

  /** `{**base, **d}`: the members of `d` stored into `base` one after another. */
  function Spread(base: seq<(string, Value)>, d: seq<(string, Value)>): seq<(string, Value)>
    decreases |d|
  {
    if d == [] then base else Spread(Put(base, d[0].0, d[0].1), d[1..])
  }

  /** After spreading a dict, its keys read its values and every other key reads `base`. */
  lemma {:induction false} SpreadGet(base: seq<(string, Value)>, d: seq<(string, Value)>, x: string)
    requires DistinctKeys(d)
    ensures Get(Spread(base, d), x) == if x in Keys(d) then Get(d, x) else Get(base, x)
    decreases |d|
  {
    if d != [] {
      var rest := d[1..];
      assert DistinctKeys(rest);
      assert Keys(d) == [d[0].0] + Keys(rest);
      SpreadGet(Put(base, d[0].0, d[0].1), rest, x);
      PutGet(base, d[0].0, d[0].1, x);
      if x == d[0].0 {
        assert x !in Keys(rest) by {
          forall j | 0 <= j < |rest| ensures Keys(rest)[j] != x {
            assert rest[j] == d[j + 1];
          }
        }
      }
    }
  }

  /** Spreading never drops a key: the first key of `base` stays first. */
  lemma {:induction false} SpreadKeepsFirst(base: seq<(string, Value)>, d: seq<(string, Value)>)
    requires base != []
    ensures Spread(base, d) != [] && Spread(base, d)[0].0 == base[0].0
    decreases |d|
  {
    if d != [] {
      PutKeepsFirst(base, d[0].0, d[0].1);
      SpreadKeepsFirst(Put(base, d[0].0, d[0].1), d[1..]);
    }
  }

  /** `{"property": prop, **spec_value(obj["mainsnak"])}` for `obj = find_preferred(objs)`. */
  function SpecEntry(h: Helpers, prop: string, objs: Value): (r: Result<Value>)
    ensures r.Ok? ==> r.value.Obj? && r.value.fields != [] && r.value.fields[0].0 == "property"
    ensures r.Ok? ==> Lookup(h.findPreferred(objs), "mainsnak").Ok?
  {
    var mainsnak :- Lookup(h.findPreferred(objs), "mainsnak");
    var flat :- SpecValue(mainsnak);
    if flat.Obj? then
      SpreadKeepsFirst([("property", Str(prop))], flat.fields);
      Ok(Obj(Spread([("property", Str(prop))], flat.fields)))
    else Err(TypeError) // `**` of something that is not a mapping
  }

  /**
    A spec entry starts with `property`; it reads the flattened spec value's keys
    and `property` (the property name, unless the flattened value has its own).
   */
  lemma SpecEntryFields(h: Helpers, prop: string, objs: Value, x: string)
    requires SpecEntry(h, prop, objs).Ok?
    requires DistinctKeys(SpecValue(Lookup(h.findPreferred(objs), "mainsnak").value).value.fields)
    ensures var e := SpecEntry(h, prop, objs).value;
            var flat := SpecValue(Lookup(h.findPreferred(objs), "mainsnak").value).value.fields;
            && e.Obj? && e.fields != [] && e.fields[0].0 == "property"
            && Get(e.fields, x) == if x in Keys(flat) then Get(flat, x)
                                   else if x == "property" then Some(Str(prop))
                                   else None
  {
    var flat := SpecValue(Lookup(h.findPreferred(objs), "mainsnak").value).value.fields;
    SpreadGet([("property", Str(prop))], flat, x);
    SpreadKeepsFirst([("property", Str(prop))], flat);
  }

  /**
    `[f(x) for x in xs]`: the results in order, or the exception of the first
    element `f` raises on, which stops the comprehension.
   */
  function Comprehend<X, Y>(f: X -> Result<Y>, xs: seq<X>): (r: Result<seq<Y>>)
    ensures r.Ok? ==> |r.value| == |xs| && forall k :: 0 <= k < |xs| ==> f(xs[k]) == Ok(r.value[k])
    ensures r.Err? ==> exists k :: && 0 <= k < |xs| && f(xs[k]) == Err(r.error)
                                   && forall k' :: 0 <= k' < k ==> f(xs[k']).Ok?
  {
    if xs == [] then Ok([])
    else
      match f(xs[0])
      case Err(error) => Err(error)
      case Ok(y) =>
        match Comprehend(f, xs[1..])
        case Err(error) =>
          assert forall k :: 0 <= k < |xs| - 1 ==> xs[1..][k] == xs[k + 1];
          Err(error)
        case Ok(rest) => Ok([y] + rest)
  }

  /** The list comprehension of `specs`, over the preferred statement of each property. */
  function SpecEntries(h: Helpers, items: seq<(string, Value)>): (r: Result<seq<Value>>)
    ensures r.Ok? ==> |r.value| == |items|
    ensures r.Ok? ==> forall k :: 0 <= k < |items| ==> SpecEntry(h, items[k].0, items[k].1) == Ok(r.value[k])
    ensures r.Err? ==> exists k :: && 0 <= k < |items| && SpecEntry(h, items[k].0, items[k].1) == Err(r.error)
                                   && forall k' :: 0 <= k' < k ==> SpecEntry(h, items[k'].0, items[k'].1).Ok?
  {
    Comprehend((item: (string, Value)) => SpecEntry(h, item.0, item.1), items)
  }

  /**
    `Part.specs`: one entry per property of `statements["spec"]`, in order; a
    falsy spec (`None`, `{}`) gives no entries, and anything else that is not a
    dict has no `items` attribute.
   */
  function Specs(h: Helpers, p: Part): (r: Result<seq<Value>>)
    ensures r.Ok? ==> Lookup(p.statements, "spec").Ok?
    ensures Lookup(p.statements, "spec") == Ok(Null) ==> r == Ok([])
  {
    var spec :- Lookup(p.statements, "spec");
    var dict := if Truthy(spec) then spec else Obj([]);
    if dict.Obj? then SpecEntries(h, dict.fields) else Err(AttributeError)
  }

  /**
    With a spec dict, `specs` has one entry per property key, in the dict's
    order, each the entry built from that property's preferred statement.
   */
  lemma SpecsPerProperty(h: Helpers, p: Part, spec: seq<(string, Value)>)
    requires Lookup(p.statements, "spec") == Ok(Obj(spec))
    requires Specs(h, p).Ok?
    ensures |Specs(h, p).value| == |spec|
    ensures forall k :: 0 <= k < |spec| ==> SpecEntry(h, spec[k].0, spec[k].1) == Ok(Specs(h, p).value[k])
  {
  }

  /** The offers of one group, each paired with the group's seller. */
  function GroupOffers(p: Part, g: OfferGroup): (r: seq<Offer>)
    ensures |r| == |g.offers|
    ensures forall j :: 0 <= j < |g.offers| ==> r[j] == Offer(p, g.offers[j], g.seller)
  {
    seq(|g.offers|, j requires 0 <= j < |g.offers| => Offer(p, g.offers[j], g.seller))
  }

  /** The offers of `groups`, group after group: one element per offer. */
  function FlatOffers(p: Part, groups: seq<OfferGroup>): (r: seq<Offer>)
    ensures |r| == TotalOffers(groups)
  {
    if groups == [] then []
    else FlatOffers(p, groups[..|groups| - 1]) + GroupOffers(p, groups[|groups| - 1])
  }

  /** The number of offers in `groups`. */
  function TotalOffers(groups: seq<OfferGroup>): nat
  {
    if groups == [] then 0 else TotalOffers(groups[..|groups| - 1]) + |groups[|groups| - 1].offers|
  }

  /** `self._offers or []`. */
  function Groups(p: Part): seq<OfferGroup>
  {
    match p.offerGroups
    case Some(gs) => gs
    case None => []
  }

  /** The `j`-th offer of group `g` sits after all offers of the earlier groups, paired with `g`'s seller. */
  lemma {:induction false} FlatOfferAt(p: Part, groups: seq<OfferGroup>, g: nat, j: nat)
    requires g < |groups| && j < |groups[g].offers|
    ensures |FlatOffers(p, groups)| == TotalOffers(groups)
    ensures TotalOffers(groups[..g]) + j < |FlatOffers(p, groups)|
    ensures FlatOffers(p, groups)[TotalOffers(groups[..g]) + j] == Offer(p, groups[g].offers[j], groups[g].seller)
    decreases |groups|
  {
    var init := groups[..|groups| - 1];
    TotalOffersPrefix(groups, g);
    if g < |groups| - 1 {
      assert groups[..g] == init[..g];
      FlatOfferAt(p, init, g, j);
    } else {
      assert groups[..g] == init;
    }
  }

  /** The `j`-th offer of group `g` sits after all offers of the earlier groups, paired with `g`'s seller. */
  predicate Placed(offers: seq<Offer>, p: Part, groups: seq<OfferGroup>, g: int, j: int)
    requires 0 <= g < |groups| && 0 <= j < |groups[g].offers|
  {
    && TotalOffers(groups[..g]) + j < |offers|
    && offers[TotalOffers(groups[..g]) + j] == Offer(p, groups[g].offers[j], groups[g].seller)
  }

  /**
    The flattened list holds every offer once: one element per offer, each
    offer of each group in its place.
   */
  lemma FlatOffersAt(p: Part, groups: seq<OfferGroup>)
    ensures |FlatOffers(p, groups)| == TotalOffers(groups)
    ensures forall g, j :: 0 <= g < |groups| && 0 <= j < |groups[g].offers| ==>
              Placed(FlatOffers(p, groups), p, groups, g, j)
  {
    forall g, j | 0 <= g < |groups| && 0 <= j < |groups[g].offers|
      ensures Placed(FlatOffers(p, groups), p, groups, g, j)
    {
      FlatOfferAt(p, groups, g, j);
    }
  }

  /** The offers of a prefix of the groups are at most all offers. */
  lemma {:induction false} TotalOffersPrefix(groups: seq<OfferGroup>, g: nat)
    requires g < |groups|
    ensures TotalOffers(groups[..g]) + |groups[g].offers| <= TotalOffers(groups)
    decreases |groups|
  {
    var init := groups[..|groups| - 1];
    if g < |groups| - 1 {
      assert init[..g] == groups[..g];
      TotalOffersPrefix(init, g);
    } else {
      assert groups[..g] == init;
    }
  }

  /**
    `Part.offers`: the nested loops that append one `Offer` per offer of each
    group, paired with the group's seller; no groups (`None` or `[]`) give none.
   */
  method Offers(p: Part) returns (offers: seq<Offer>)
    ensures offers == FlatOffers(p, Groups(p))
  {
    var groups := Groups(p);
    offers := [];
    var gi := 0;
    while gi < |groups|
      invariant 0 <= gi <= |groups|
      invariant offers == FlatOffers(p, groups[..gi])
    {
      var group := groups[gi];
      var seller := group.seller;
      var j := 0;
      while j < |group.offers|
        invariant 0 <= j <= |group.offers|
        invariant offers == FlatOffers(p, groups[..gi]) + GroupOffers(p, group)[..j]
      {
        offers := offers + [Offer(p, group.offers[j], seller)];
        j := j + 1;
      }
      assert groups[..gi + 1][..gi] == groups[..gi];
      assert GroupOffers(p, group)[..j] == GroupOffers(p, group);
      gi := gi + 1;
    }
    assert groups[..gi] == groups;
  }

  /**
    `Part.terminations`: the rendered preferred `numberofpins` statement read as
    an integer, or `None` when `int` raises `ValueError`; any other exception
    propagates.
   */
  function Terminations(h: Helpers, p: Part): (r: Result<Option<int>>)
    ensures r.Ok? ==> Lookup(p.statements, "numberofpins").Ok?
  {
    var objs :- Lookup(p.statements, "numberofpins");
    match IntOf(h.mainsnakToStr(h.findPreferred(objs)))
    case Ok(n) => Ok(Some(n))
    case Err(ValueError) => Ok(None)
    case Err(e) => Err(e)
  }

  /** The rendered preferred statement of `numberofpins` for the part. */
  function RenderedPins(h: Helpers, p: Part): Value
    requires Lookup(p.statements, "numberofpins").Ok?
  {
    h.mainsnakToStr(h.findPreferred(Lookup(p.statements, "numberofpins").value))
  }

  /**
    A rendered number gives that number back; a rendered string that is no
    integer literal gives `None`; a rendering that is no string, number or
    boolean raises `TypeError`.
   */
  lemma TerminationsCases(h: Helpers, p: Part, n: int, s: string)
    requires Lookup(p.statements, "numberofpins").Ok?
    ensures RenderedPins(h, p) == Str(Show(n)) ==> Terminations(h, p) == Ok(Some(n))
    ensures RenderedPins(h, p) == Str(s) && (forall k :: 0 <= k < |s| ==> !IsDigit(s[k])) ==>
              Terminations(h, p) == Ok(None)
    ensures RenderedPins(h, p).Null? || RenderedPins(h, p).Arr? || RenderedPins(h, p).Obj? ==>
              Terminations(h, p) == Err(TypeError)
  {
    ParseShow(n);
    if RenderedPins(h, p) == Str(s) && ParseInt(s).Ok? {
      ParsedCharacters(s);
    }
  }

  /** The statements the string properties render. */
  datatype Rendered = Description | HeroImage | Mpn | Mfr | Package

  function StatementKey(r: Rendered): string
  {
    match r
    case Description => "desc"
    case HeroImage => "image"
    case Mpn => "mpn"
    case Mfr => "mfr"
    case Package => "package"
  }

  /**
    `description`, `hero_image`, `mpn`, `mfr` and `package`: the preferred
    statement of the property's key, rendered; a missing key is a `KeyError`.
   */
  function RenderedProperty(h: Helpers, p: Part, prop: Rendered): (r: Result<Value>)
    ensures r.Err? <==> Lookup(p.statements, StatementKey(prop)).Err?
    ensures r.Ok? ==> r.value == h.mainsnakToStr(h.findPreferred(Lookup(p.statements, StatementKey(prop)).value))
  {
    var objs :- Lookup(p.statements, StatementKey(prop));
    Ok(h.mainsnakToStr(h.findPreferred(objs)))
  }

  /** Distinct properties read distinct statements. */
  lemma StatementKeysDistinct(a: Rendered, b: Rendered)
    ensures StatementKey(a) == StatementKey(b) ==> a == b
  {
  }

  /** `documents`. */
  function Documents(p: Part): seq<Value> { [] }

  /** `msl`: the moisture sensitivity level. */
  function Msl(p: Part): int { 1 }

  /** `data_age`. */
  function DataAge(p: Part): Option<int> { None }

  /** `availability`: it computes `offers` and discards them. */
  function Availability(p: Part): Value
  {
    Obj([("buyable", Num(0)), ("quotable", Num(0)), ("maybe", Num(0))])
  }

  /** The constant properties do not depend on the part. */
  lemma PartConstants(p: Part)
    ensures Documents(p) == [] && Msl(p) == 1 && DataAge(p) == None
    ensures Availability(p).Obj? && Keys(Availability(p).fields) == ["buyable", "quotable", "maybe"]
    ensures forall x :: x in Keys(Availability(p).fields) ==> Get(Availability(p).fields, x) == Some(Num(0))
  {
  }
}
