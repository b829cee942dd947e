/**
  The `Seller` view of cofactr/odm/seller.py: a seller's display name, chosen
  from its labels and aliases (dicts keyed by language code), and the scores
  and flags every seller currently gets.
 */
module Sellers {
  import opened Json

  /**
    A seller as `__init__` stores it. Each argument defaults to `None`; nothing
    assigns the fields afterwards.
   */
  datatype Seller = Seller(labels: Value, aliases: Value, statements: Value)

  /** `Seller()` with every argument left at its default. */
  const Unnamed: Seller := Seller(Null, Null, Null)

  /** `labels.get("en")` is present and truthy. */
  predicate HasLabel(s: Seller)
  {
    s.labels.Obj? && Get(s.labels.fields, "en").Some? && Truthy(Get(s.labels.fields, "en").value)
  }

  /**
    `Seller.name`: the English label's `value`; failing that, the `value` of the
    first English alias; failing that, `None`. A missing `"en"` alias list stands
    for `[None]`, but an empty one cannot be indexed.
   */
  function Name(s: Seller): (r: Result<Value>)
    ensures !s.labels.Obj? ==> r == Err(AttributeError)
    ensures HasLabel(s) ==> r == Lookup(Get(s.labels.fields, "en").value, "value")
    ensures s.labels.Obj? && !HasLabel(s) && !s.aliases.Obj? ==> r == Err(AttributeError)
  {
    var enLabel :- GetOr(s.labels, "en", Null);
    if Truthy(enLabel) then Lookup(enLabel, "value")
    else
      var aliases :- GetOr(s.aliases, "en", Arr([Null]));
      var alias :- Head(aliases);
      if Truthy(alias) then Lookup(alias, "value") else Ok(Null)
  }

  /** The English aliases of a seller without a usable label. */
  predicate FallsBackTo(s: Seller, aliases: seq<Value>)
  {
    && s.labels.Obj? && !HasLabel(s)
    && s.aliases.Obj? && Get(s.aliases.fields, "en") == Some(Arr(aliases))
  }

  /** A truthy English label decides the name, whatever the aliases hold. */
  lemma LabelWins(s: Seller, aliases: Value)
    requires HasLabel(s)
    ensures Name(s) == Name(s.(aliases := aliases))
    ensures Name(s) == Lookup(Get(s.labels.fields, "en").value, "value")
  {
  }

  /** Without a usable label, a truthy first English alias gives the name. */
  lemma AliasFallback(s: Seller, aliases: seq<Value>)
    requires FallsBackTo(s, aliases) && aliases != [] && Truthy(aliases[0])
    ensures Name(s) == Lookup(aliases[0], "value")
  {
  }

  /** Without a usable label, a falsy first English alias gives `None`. */
  lemma FalsyAlias(s: Seller, aliases: seq<Value>)
    requires FallsBackTo(s, aliases) && aliases != [] && !Truthy(aliases[0])
    ensures Name(s) == Ok(Null)
  {
  }

  /** Without a usable label and without English aliases, the name is `None`. */
  lemma NoEnglishAlias(s: Seller)
    requires s.labels.Obj? && !HasLabel(s)
    requires s.aliases.Obj? && "en" !in Keys(s.aliases.fields)
    ensures Name(s) == Ok(Null)
  {
  }

  /** An empty English alias list raises `IndexError` instead of giving `None`. */
  lemma EmptyAliasList(s: Seller)
    requires FallsBackTo(s, [])
    ensures Name(s) == Err(IndexError)
  {
  }

  /** A seller built without labels has no name: `None.get` raises. */
  lemma UnnamedFails()
    ensures Name(Unnamed) == Err(AttributeError)
  {
  }

  /** `accuracy_score`. */
  function AccuracyScore(s: Seller): int { 100 }

  /** `quality_score`. */
  function QualityScore(s: Seller): int { 100 }

  /** `additional_markup`. */
  function AdditionalMarkup(s: Seller): int { 0 }

  /** `additional_fee`. */
  function AdditionalFee(s: Seller): int { 0 }

  /** `certifications`. */
  function Certifications(s: Seller): set<string> { {} }

  /** `buyable`. */
  function Buyable(s: Seller): bool { true }

  /** The scores and flags are the same for every seller. */
  lemma SellerConstants(s: Seller)
    ensures AccuracyScore(s) == 100 && QualityScore(s) == 100
    ensures AdditionalMarkup(s) == 0 && AdditionalFee(s) == 0
    ensures Certifications(s) == {} && Buyable(s)
  {
  }
}
