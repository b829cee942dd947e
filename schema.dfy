/**
  The schema registry of cofactr/schema/__init__.py: the closed sets of schema
  names a client may ask the API for, and the tables that pick the decoder for
  the entities a response carries in that schema.

  Each decoder is a dataclass (or the identity function) whose fields are plain
  declarations; here a decoder is only its tag.
 */
module Schema {
  import opened Json

  /** The product schemas, in declaration order. */
  datatype ProductSchemaName =
    | Internal
    | Flagship | FlagshipV2 | FlagshipV3 | FlagshipV4 | FlagshipV5 | FlagshipV6 | FlagshipV7
    | FlagshipAltsV0
    | FlagshipCacheV0 | FlagshipCacheV1 | FlagshipCacheV2 | FlagshipCacheV3 | FlagshipCacheV4
    | Logistics | LogisticsV2 | LogisticsV3 | LogisticsV4
    | PriceSolverV0 | PriceSolverV1 | PriceSolverV2 | PriceSolverV3
    | PriceSolverV4 | PriceSolverV5 | PriceSolverV6 | PriceSolverV7

  /** The offer schemas. */
  datatype OfferSchemaName =
    | OfferInternal | OfferFlagship | OfferFlagshipV2 | OfferFlagshipV3 | OfferFlagshipV4
    | OfferFlagshipV5 | OfferLogistics | OfferLogisticsV2

  /** The organization schemas. */
  datatype OrgSchemaName =
    | OrgInternal | OrgFlagship | OrgFlagshipV2 | OrgFlagshipV3 | OrgFlagshipV4
    | OrgLogistics | OrgLogisticsV2

  /** The supplier schemas. */
  datatype SupplierSchemaName =
    | SupplierInternal | SupplierFlagship | SupplierFlagshipV2 | SupplierFlagshipV3
    | SupplierFlagshipV4 | SupplierLogistics | SupplierLogisticsV2

  /** The decoders the tables name: the identity function or one of the schema dataclasses. */
  datatype Decoder =
    | Identity
    | FlagshipPart | FlagshipV2Part | FlagshipV3Part | FlagshipV4Part
    | FlagshipV5Part | FlagshipV6Part | FlagshipV7Part
    | FlagshipAltsV0Part
    | FlagshipCacheV0Part | FlagshipCacheV1Part | FlagshipCacheV2Part
    | FlagshipCacheV3Part | FlagshipCacheV4Part
    | LogisticsPart | LogisticsV2Part | LogisticsV3Part | LogisticsV4Part
    | PriceSolverV0Part | PriceSolverV1Part | PriceSolverV2Part | PriceSolverV3Part
    | PriceSolverV4Part | PriceSolverV5Part | PriceSolverV6Part | PriceSolverV7Part
    | FlagshipOffer | FlagshipV2Offer | FlagshipV3Offer | FlagshipV4Offer | FlagshipV5Offer
    | LogisticsOffer | LogisticsV2Offer
    | FlagshipSeller | FlagshipV2Seller | FlagshipV3Seller | FlagshipV4Seller
    | LogisticsV2Seller

  /** `.value` of a product schema name: the string the API knows it by. */
  function ProductValue(n: ProductSchemaName): string
  {
    match n
    case Internal => "internal"
    case Flagship => "flagship"
    case FlagshipV2 => "flagship-v2"
    case FlagshipV3 => "flagship-v3"
    case FlagshipV4 => "flagship-v4"
    case FlagshipV5 => "flagship-v5"
    case FlagshipV6 => "flagship-v6"
    case FlagshipV7 => "flagship-v7"
    case FlagshipAltsV0 => "flagship-alts-v0"
    case FlagshipCacheV0 => "flagship-cache-v0"
    case FlagshipCacheV1 => "flagship-cache-v1"
    case FlagshipCacheV2 => "flagship-cache-v2"
    case FlagshipCacheV3 => "flagship-cache-v3"
    case FlagshipCacheV4 => "flagship-cache-v4"
    case Logistics => "logistics"
    case LogisticsV2 => "logistics-v2"
    case LogisticsV3 => "logistics-v3"
    case LogisticsV4 => "logistics-v4"
    case PriceSolverV0 => "price-solver-v0"
    case PriceSolverV1 => "price-solver-v1"
    case PriceSolverV2 => "price-solver-v2"
    case PriceSolverV3 => "price-solver-v3"
    case PriceSolverV4 => "price-solver-v4"
    case PriceSolverV5 => "price-solver-v5"
    case PriceSolverV6 => "price-solver-v6"
    case PriceSolverV7 => "price-solver-v7"
  }

  /** `ProductSchemaName(s)`: the member whose value is `s`, `ValueError` for any other string. */
  function ProductFromValue(s: string): (r: Result<ProductSchemaName>)
    ensures r.Err? ==> r.error == ValueError
  {
    match s
    case "internal" => Ok(Internal)
    case "flagship" => Ok(Flagship)
    case "flagship-v2" => Ok(FlagshipV2)
    case "flagship-v3" => Ok(FlagshipV3)
    case "flagship-v4" => Ok(FlagshipV4)
    case "flagship-v5" => Ok(FlagshipV5)
    case "flagship-v6" => Ok(FlagshipV6)
    case "flagship-v7" => Ok(FlagshipV7)
    case "flagship-alts-v0" => Ok(FlagshipAltsV0)
    case "flagship-cache-v0" => Ok(FlagshipCacheV0)
    case "flagship-cache-v1" => Ok(FlagshipCacheV1)
    case "flagship-cache-v2" => Ok(FlagshipCacheV2)
    case "flagship-cache-v3" => Ok(FlagshipCacheV3)
    case "flagship-cache-v4" => Ok(FlagshipCacheV4)
    case "logistics" => Ok(Logistics)
    case "logistics-v2" => Ok(LogisticsV2)
    case "logistics-v3" => Ok(LogisticsV3)
    case "logistics-v4" => Ok(LogisticsV4)
    case "price-solver-v0" => Ok(PriceSolverV0)
    case "price-solver-v1" => Ok(PriceSolverV1)
    case "price-solver-v2" => Ok(PriceSolverV2)
    case "price-solver-v3" => Ok(PriceSolverV3)
    case "price-solver-v4" => Ok(PriceSolverV4)
    case "price-solver-v5" => Ok(PriceSolverV5)
    case "price-solver-v6" => Ok(PriceSolverV6)
    case "price-solver-v7" => Ok(PriceSolverV7)
    case _ => Err(ValueError)
  }

  /** Looking a product schema up by its value gives it back, and only values of members are found. */
  lemma ProductValueRoundTrip(n: ProductSchemaName, s: string)
    ensures ProductFromValue(ProductValue(n)) == Ok(n)
    ensures ProductFromValue(s).Ok? ==> ProductValue(ProductFromValue(s).value) == s
  {
  }

  /** Distinct product schemas have distinct values. */
  lemma ProductValueInjective(a: ProductSchemaName, b: ProductSchemaName)
    ensures ProductValue(a) == ProductValue(b) ==> a == b
  {
    ProductValueRoundTrip(a, "");
    ProductValueRoundTrip(b, "");
  }

  function OfferValue(n: OfferSchemaName): string
  {
    match n
    case OfferInternal => "internal"
    case OfferFlagship => "flagship"
    case OfferFlagshipV2 => "flagship-v2"
    case OfferFlagshipV3 => "flagship-v3"
    case OfferFlagshipV4 => "flagship-v4"
    case OfferFlagshipV5 => "flagship-v5"
    case OfferLogistics => "logistics"
    case OfferLogisticsV2 => "logistics-v2"
  }

  function OfferFromValue(s: string): (r: Result<OfferSchemaName>)
    ensures r.Err? ==> r.error == ValueError
  {
    match s
    case "internal" => Ok(OfferInternal)
    case "flagship" => Ok(OfferFlagship)
    case "flagship-v2" => Ok(OfferFlagshipV2)
    case "flagship-v3" => Ok(OfferFlagshipV3)
    case "flagship-v4" => Ok(OfferFlagshipV4)
    case "flagship-v5" => Ok(OfferFlagshipV5)
    case "logistics" => Ok(OfferLogistics)
    case "logistics-v2" => Ok(OfferLogisticsV2)
    case _ => Err(ValueError)
  }

  lemma OfferValueRoundTrip(n: OfferSchemaName, s: string)
    ensures OfferFromValue(OfferValue(n)) == Ok(n)
    ensures OfferFromValue(s).Ok? ==> OfferValue(OfferFromValue(s).value) == s
  {
  }

  function OrgValue(n: OrgSchemaName): string
  {
    match n
    case OrgInternal => "internal"
    case OrgFlagship => "flagship"
    case OrgFlagshipV2 => "flagship-v2"
    case OrgFlagshipV3 => "flagship-v3"
    case OrgFlagshipV4 => "flagship-v4"
    case OrgLogistics => "logistics"
    case OrgLogisticsV2 => "logistics-v2"
  }

  function OrgFromValue(s: string): (r: Result<OrgSchemaName>)
    ensures r.Err? ==> r.error == ValueError
  {
    match s
    case "internal" => Ok(OrgInternal)
    case "flagship" => Ok(OrgFlagship)
    case "flagship-v2" => Ok(OrgFlagshipV2)
    case "flagship-v3" => Ok(OrgFlagshipV3)
    case "flagship-v4" => Ok(OrgFlagshipV4)
    case "logistics" => Ok(OrgLogistics)
    case "logistics-v2" => Ok(OrgLogisticsV2)
    case _ => Err(ValueError)
  }

  lemma OrgValueRoundTrip(n: OrgSchemaName, s: string)
    ensures OrgFromValue(OrgValue(n)) == Ok(n)
    ensures OrgFromValue(s).Ok? ==> OrgValue(OrgFromValue(s).value) == s
  {
  }

  function SupplierValue(n: SupplierSchemaName): string
  {
    match n
    case SupplierInternal => "internal"
    case SupplierFlagship => "flagship"
    case SupplierFlagshipV2 => "flagship-v2"
    case SupplierFlagshipV3 => "flagship-v3"
    case SupplierFlagshipV4 => "flagship-v4"
    case SupplierLogistics => "logistics"
    case SupplierLogisticsV2 => "logistics-v2"
  }

  function SupplierFromValue(s: string): (r: Result<SupplierSchemaName>)
    ensures r.Err? ==> r.error == ValueError
  {
    match s
    case "internal" => Ok(SupplierInternal)
    case "flagship" => Ok(SupplierFlagship)
    case "flagship-v2" => Ok(SupplierFlagshipV2)
    case "flagship-v3" => Ok(SupplierFlagshipV3)
    case "flagship-v4" => Ok(SupplierFlagshipV4)
    case "logistics" => Ok(SupplierLogistics)
    case "logistics-v2" => Ok(SupplierLogisticsV2)
    case _ => Err(ValueError)
  }

  lemma SupplierValueRoundTrip(n: SupplierSchemaName, s: string)
    ensures SupplierFromValue(SupplierValue(n)) == Ok(n)
    ensures SupplierFromValue(s).Ok? ==> SupplierValue(SupplierFromValue(s).value) == s
  {
  }

  /** `schema_to_product`. */
  const SchemaToProduct: map<ProductSchemaName, Decoder> := map[
    Flagship := FlagshipPart,
    FlagshipV2 := FlagshipV2Part,
    FlagshipV3 := FlagshipV3Part,
    FlagshipV4 := FlagshipV4Part,
    FlagshipV5 := FlagshipV5Part,
    FlagshipV6 := FlagshipV6Part,
    FlagshipV7 := FlagshipV7Part,
    FlagshipAltsV0 := FlagshipAltsV0Part,
    FlagshipCacheV0 := FlagshipCacheV0Part,
    FlagshipCacheV1 := FlagshipCacheV1Part,
    FlagshipCacheV2 := FlagshipCacheV2Part,
    FlagshipCacheV3 := FlagshipCacheV3Part,
    FlagshipCacheV4 := FlagshipCacheV4Part,
    Logistics := LogisticsPart,
    LogisticsV2 := LogisticsV2Part,
    LogisticsV3 := LogisticsV3Part,
    LogisticsV4 := LogisticsV4Part,
    PriceSolverV0 := PriceSolverV0Part,
    PriceSolverV1 := PriceSolverV1Part,
    PriceSolverV2 := PriceSolverV2Part,
    PriceSolverV3 := PriceSolverV3Part,
    PriceSolverV4 := PriceSolverV4Part,
    PriceSolverV5 := PriceSolverV5Part,
    PriceSolverV6 := PriceSolverV6Part,
    PriceSolverV7 := PriceSolverV7Part
  ]

  /** `schema_to_offer`. */
  const SchemaToOffer: map<OfferSchemaName, Decoder> := map[
    OfferInternal := Identity,
    OfferFlagship := FlagshipOffer,
    OfferFlagshipV2 := FlagshipV2Offer,
    OfferFlagshipV3 := FlagshipV3Offer,
    OfferFlagshipV4 := FlagshipV4Offer,
    OfferFlagshipV5 := FlagshipV5Offer,
    OfferLogistics := LogisticsOffer,
    OfferLogisticsV2 := LogisticsV2Offer
  ]

  /** `schema_to_org`. */
  const SchemaToOrg: map<OrgSchemaName, Decoder> := map[
    OrgInternal := Identity,
    OrgFlagship := FlagshipSeller,
    OrgFlagshipV2 := FlagshipV2Seller,
    OrgFlagshipV3 := FlagshipV3Seller,
    OrgFlagshipV4 := FlagshipV4Seller,
    OrgLogistics := FlagshipSeller,
    OrgLogisticsV2 := LogisticsV2Seller
  ]

  /** `schema_to_supplier`. */
  const SchemaToSupplier: map<SupplierSchemaName, Decoder> := map[
    SupplierInternal := Identity,
    SupplierFlagship := FlagshipSeller,
    SupplierFlagshipV2 := FlagshipV2Seller,
    SupplierFlagshipV3 := FlagshipV3Seller,
    SupplierFlagshipV4 := FlagshipV4Seller,
    SupplierLogistics := FlagshipSeller,
    SupplierLogisticsV2 := LogisticsV2Seller
  ]

  /** The product schemas in declaration order, as iterating over the enumeration lists them. */
  const ProductMembers: seq<ProductSchemaName> := [
    Internal,
    Flagship, FlagshipV2, FlagshipV3, FlagshipV4, FlagshipV5, FlagshipV6, FlagshipV7,
    FlagshipAltsV0,
    FlagshipCacheV0, FlagshipCacheV1, FlagshipCacheV2, FlagshipCacheV3, FlagshipCacheV4,
    Logistics, LogisticsV2, LogisticsV3, LogisticsV4,
    PriceSolverV0, PriceSolverV1, PriceSolverV2, PriceSolverV3,
    PriceSolverV4, PriceSolverV5, PriceSolverV6, PriceSolverV7
  ]

  /** Every product schema is one of the 26 members. */
  lemma ProductMembersComplete(n: ProductSchemaName)
    ensures n in ProductMembers && |ProductMembers| == 26
  {
    match n
    case Internal =>
    case Flagship =>
    case FlagshipV2 =>
    case FlagshipV3 =>
    case FlagshipV4 =>
    case FlagshipV5 =>
    case FlagshipV6 =>
    case FlagshipV7 =>
    case FlagshipAltsV0 =>
    case FlagshipCacheV0 =>
    case FlagshipCacheV1 =>
    case FlagshipCacheV2 =>
    case FlagshipCacheV3 =>
    case FlagshipCacheV4 =>
    case Logistics =>
    case LogisticsV2 =>
    case LogisticsV3 =>
    case LogisticsV4 =>
    case PriceSolverV0 =>
    case PriceSolverV1 =>
    case PriceSolverV2 =>
    case PriceSolverV3 =>
    case PriceSolverV4 =>
    case PriceSolverV5 =>
    case PriceSolverV6 =>
    case PriceSolverV7 =>
  }

  /** No member is listed twice, so the enumeration has exactly 26 members. */
  lemma ProductMembersDistinct()
    ensures forall i, j :: 0 <= i < j < |ProductMembers| ==> ProductMembers[i] != ProductMembers[j]
  {
  }

  /** Only the internal schema lacks a product decoder. */
  lemma ProductTableDomain(n: ProductSchemaName)
    ensures n in SchemaToProduct <==> n != Internal
  {
    ProductMembersComplete(n);
  }

  /**
    `schema_to_product[n]`: a `KeyError` for the internal schema, and for every
    other schema a part decoder.
   */
  function ProductDecoder(n: ProductSchemaName): (r: Result<Decoder>)
    ensures r.Err? <==> n == Internal
    ensures r.Err? ==> r.error == KeyError
    ensures r.Ok? ==> r.value != Identity && r.value in SchemaToProduct.Values
  {
    ProductTableDomain(n);
    if n in SchemaToProduct then Ok(SchemaToProduct[n]) else Err(KeyError)
  }

  /** The offer, organization and supplier tables cover their whole enumeration. */
  lemma TablesTotal(o: OfferSchemaName, g: OrgSchemaName, s: SupplierSchemaName)
    ensures o in SchemaToOffer && g in SchemaToOrg && s in SchemaToSupplier
  {
  }

  /** The internal schema decodes offers, organizations and suppliers with the identity function. */
  lemma InternalIsIdentity()
    ensures SchemaToOffer[OfferInternal] == Identity
    ensures SchemaToOrg[OrgInternal] == Identity
    ensures SchemaToSupplier[SupplierInternal] == Identity
    ensures forall o :: o in SchemaToOffer && SchemaToOffer[o] == Identity ==> o == OfferInternal
  {
  }

  /** The logistics schema reuses the flagship seller decoder for organizations and suppliers. */
  lemma LogisticsReusesFlagshipSeller()
    ensures SchemaToOrg[OrgLogistics] == SchemaToOrg[OrgFlagship] == FlagshipSeller
    ensures SchemaToSupplier[SupplierLogistics] == SchemaToSupplier[SupplierFlagship] == FlagshipSeller
  {
  }

  /** Organization and supplier names with the same value select the same decoder. */
  lemma OrgAndSupplierAgree(g: OrgSchemaName, s: SupplierSchemaName)
    ensures OrgValue(g) == SupplierValue(s) ==> SchemaToOrg[g] == SchemaToSupplier[s]
    ensures OrgValue(g) == SupplierValue(s) <==> OrgFromValue(SupplierValue(s)) == Ok(g)
  {
  }
}
