# cofactr-client core, modelled in Dafny

This project models the logic of the Cofactr graph API client that runs without
the network:

- **Paging links and the pagination cursor** (`cofactr/cursor.py`). A paging
  link's query is parsed into one value per parameter name. `parse_paging_data`
  parses a page's `previous` and `next` links. `first` takes a prefix of an
  iterable. `Cursor` is a pull-driven iterator: it fetches one page when it is
  built, and afterwards fetches the next page only when the current page is used
  up and the page's `next` link still carries parameters.
- **The schema registry** (`cofactr/schema/__init__.py`). It holds the closed
  enumerations of product, offer, organization and supplier schema names, and
  the tables that pick a decoder for each name.
- **The `Part` view** (`cofactr/odm/part.py`). `spec_value` flattens a statement
  by its datatype. `specs` lists the preferred statement of each property.
  `offers` flattens the offer groups. `terminations` reads the pin count as an
  integer. The remaining properties are constants.
- **The `Seller` view** (`cofactr/odm/seller.py`). The name is the English label,
  else the first English alias. The remaining properties are constants.

Files and modules:

| file | module | models |
|---|---|---|
| json.dfy | `Json` | decoded JSON values and the Python operations the code applies to them (`v[k]`, `dict.get`, `v[0]`, truthiness); Python exceptions as `Err` values |
| query.dfy | `Query` | `urlparse(...).query`, `parse_qs`, `parse_query_params`, `parse_paging_data`, `first` |
| cursor.dfy | `Pagination` | `Cursor` as a class with a ghost history of requests, pages and yielded items; `list(islice(cursor, n))` as `Take`, its loop as `Drain`; a whole run of a fresh cursor as `Collect` |
| schema.dfy | `Schema` | the four schema enumerations, their string values and the four decoder tables |
| pyint.dfy | `PyInt` | Python's `int(x)` on the values `terminations` passes it |
| part.dfy | `Parts` | `TYPE_TO_VALUE_ACCESSOR`, `spec_value` and the `Part` properties |
| seller.dfy | `Sellers` | the `Seller` properties |

The HTTP `request` callback of the cursor becomes a total function `fetch` from
the request's `before`, `after` and `limit` to a page. The fixed positional and
keyword arguments are folded into `fetch`. `find_preferred` and `mainsnak_to_str`
come from modules outside this model, so they are the two function fields of a
`Helpers` value. The `Offer` class is represented by the three arguments its
constructor receives. A decoder in the schema tables is only a tag
(`Identity`, `FlagshipSeller`, …), because the schema dataclasses hold only
field declarations.

Where Python's behaviour depends on its version, the model follows Python 3.9,
the version the package's `setup.py` lists, at 3.9.2 or later.

Three behaviours of the cursor's code are easy to misread; the model states them as written:

- A `limit` of `0` does not stop the cursor at zero items. The test
  `if self.limit and ...` is a truthiness test, so `0` means "no limit", just
  like `None` (cofactr/cursor.py:56).
- A page with no entities does not, in general, lead on to the next-link check.
  When a page fetched by following a `next` link is empty, line 70 indexes it
  anyway and raises `IndexError` (cofactr/cursor.py:67-70). Only the page from
  the constructor goes straight to the next-link check when it is empty.
- The next page is not requested with all of the `next` link's parameters.
  `request_batch` takes only `before` and `after` from them. Any other
  parameter falls into its unused `**kwargs`, and the page size is always
  `batch_size` (cofactr/cursor.py:41-48).

## Model

| member | source | states |
|---|---|---|
| Query.FindFirst | cofactr/cursor.py:8 | the position where the URL is cut is the first occurrence of the character, or the end when the character does not occur |
| Query.SplitJoin | cofactr/cursor.py:8 | splitting a query on `&` cuts at every separator and nowhere else: joining the parts gives the query back |
| Query.QueryOfSpec | cofactr/cursor.py:8 | a missing link, or a link without `?`, has an empty query, and a query never contains the fragment marker `#` |
| Query.FieldDropped | cofactr/cursor.py:8 | a query field is dropped exactly when it has no `=` or nothing follows its first `=` (blank values are not kept) |
| Query.FieldKept | cofactr/cursor.py:8 | a kept field splits at its first `=` into a name without `=` and a non-empty value |
| Query.GroupSpec | cofactr/cursor.py:8 | `parse_qs` groups the pairs by name: its keys are exactly the names in the query, and each name lists all its values in order |
| Query.FirstValueWins | cofactr/cursor.py:8 | the first value listed for a name is the value of that name's first occurrence |
| Query.ParseQueryParams | cofactr/cursor.py:7-9 | the parameter names of the parsed link are exactly the names in its query |
| Query.ParseQueryParamsFirstWins | cofactr/cursor.py:7-9 | `parse_query_params` has one string per parameter name of the link, and a repeated name keeps the value of its first occurrence |
| Query.EmptyLinkHasNoParams | cofactr/cursor.py:7-9 | a missing link, or one without a query, parses to the empty map |
| Query.ParsePagingData | cofactr/cursor.py:11-14 | the result holds exactly `previous` and `next`, each the parsed parameters of that link; a missing link key is a `KeyError` |
| Query.First | cofactr/cursor.py:16 | `first(xs, i)` is the prefix of `xs` of length `min(i, len(xs))`, all of `xs` for `None`, and a `ValueError` exactly when `i` is negative or above `sys.maxsize` (that of a 64-bit interpreter), the stops `islice` refuses |
| Query.FirstOfFirst | cofactr/cursor.py:16 | taking `i` items and then `j` items is taking `min(i, j)` items, for stops `islice` accepts |
| Pagination.NextLinkOnlyBeforeAfter | cofactr/cursor.py:41-48 | `request_batch(**paging["next"])` uses only `before` and `after`: two non-empty next links that agree on them lead to the same request |
| Pagination.LimitCases | cofactr/cursor.py:56 | `LimitReached`: a limit of `None` or `0` never stops the cursor, a positive limit stops it once `i` reaches it, and a negative one stops it at once |
| Pagination.NextLinkFromPagingData | cofactr/cursor.py:59-68 | the contract of `NextLink`, the step taken on a used-up page: the cursor fails with `KeyError` exactly when a paging link is missing, stops when the parsed `next` map is empty, and otherwise requests only that map's `before`/`after` with a page size of `batch_size` |
| Pagination.ConsistentAfterItem | cofactr/cursor.py:70-75 | returning the current entity of the page keeps the history consistent: the items yielded are the fetched pages' entities in order, up to the page index |
| Pagination.ConsistentAfterFollow | cofactr/cursor.py:59-68 | fetching the page that a used-up page's `next` link names keeps the chain of requests and pages consistent |
| Pagination.EndsWithinFollow | cofactr/cursor.py:67-68 | following a `next` link uses up one fetch of a finite bound on the chain of links |
| Pagination.ChainFrom | cofactr/cursor.py:59-68 | the reference run of pages: the first page is the first request's answer, and the run grows by one fetch while its last page's link is followed (for the cursor, the links `LinksOf(batch_size)`, that is `NextLink`) |
| Pagination.Cursor.constructor | cofactr/cursor.py:20-48 | construction makes exactly one fetch, with the caller's `before`/`after` and `limit = batch_size`, and leaves `i = batch_i = 0` with nothing yielded |
| Pagination.Cursor.FetchNext | cofactr/cursor.py:67-68 | `batch_i` is reset to 0 and exactly one page is fetched, with the request that the `next` link gives; nothing yielded changes |
| Pagination.Cursor.Advance | cofactr/cursor.py:70-75 | the returned item is `batch.data[batch_i]`, and `i` and `batch_i` each grow by exactly 1 |
| Pagination.Cursor.Next | cofactr/cursor.py:54-75 | past a non-zero limit it stops without fetching; on a used-up page it stops when `next` is empty, fails with `KeyError` when a link is missing, or makes one fetch and returns the new page's first entity (`IndexError` if that page is empty); otherwise it returns the next entity; `i` always counts the yielded items and stays within a positive limit |
| Pagination.EndedDeliversEverything | cofactr/cursor.py:59-65 | when iteration ends on an empty `next` link, the items yielded are all entities of all fetched pages, in order |
| Pagination.ChainedIsChain | cofactr/cursor.py:59-68 | the pages a cursor has fetched are exactly the run that starts at its first request and follows `next` links, one fetch per page |
| Pagination.ChainedWithin | cofactr/cursor.py:59-68 | when the links from the first page end within `n` fetches, a cursor's history holds at most `n + 1` pages |
| Pagination.ChainFromStays | cofactr/cursor.py:59-65 | a run whose last link is not followed does not grow when more fetches are allowed |
| Pagination.ChainedRun | cofactr/cursor.py:59-68 | a cursor's history that ends on a link it does not follow is the whole run, for any allowance of fetches at least its length |
| Pagination.Take | cofactr/cursor.py:16 | `first(cursor, n)` returns the next items the cursor yields, at most `n` of them; the cursor's history of requests and pages only grows; it fetches no page it returns nothing from, since every page fetched during a successful call holds entities and gave up a returned item; when it returns fewer items, the cursor has ended, and when no limit stopped it, every fetched entity has been yielded and the last `next` link is empty; a stop `islice` refuses is a `ValueError` before anything is pulled; a `KeyError` leaves the cursor on a used-up page with a missing paging link, and an `IndexError` on a page it has just fetched that has no entities |
| Pagination.Drain | cofactr/cursor.py:16 | the `list(...)` loop over an accepted `islice`: the same results and cursor states as `Take` once the stop is accepted, including that no page is fetched without an item taken from it, proved by loop invariants over the cursor's history |
| Pagination.Pull | cofactr/cursor.py:54-75 | one `next(cursor)` as that loop sees it: a stop means the cursor has ended and nothing changed, an entity extends what was yielded, and a page fetched and returned from holds entities and has given up that entity, and each exception leaves the state that explains it |
| Pagination.Collect | cofactr/cursor.py:16-75 | for the run of pages from the request `(before, after, batch_size)` (its links ending within the given number of fetches), `first(Cursor(request, before, after, None, batch_size), None)` is: every entity of the run, page after page, exactly when the last page's `next` link is empty and every page after the first holds entities; `IndexError` exactly when a page after the first is empty; `KeyError` exactly when none is, and a paging link of the last page is missing |
| Pagination.RunOutcome | cofactr/cursor.py:59-70 | how the pages the cursor fetched before it stopped or failed decide the outcome for the whole run: a result or `KeyError` means the history is the run, an `IndexError` an empty page inside it |
| Pagination.HistoryInRun | cofactr/cursor.py:59-68 | a cursor's history from a page whose links end within `n` fetches is a prefix of the run of `n` fetches, and all of it once the last page's `next` link is not followed |
| Pagination.ChainedInRun | cofactr/cursor.py:59-68 | a chained history within the allowance of fetches is a prefix of the run, and equal to it once its last link is not followed |
| Pagination.ChainFromGrows | cofactr/cursor.py:59-68 | the run with a smaller allowance of fetches is a prefix of the run with a larger one |
| Schema.ProductValueRoundTrip | cofactr/schema/__init__.py:39-67 | building a product schema name from its string value gives the name back, and only member values are accepted (`ValueError` otherwise) |
| Schema.ProductFromValue | cofactr/schema/__init__.py:39-67 | `ProductSchemaName(s)` fails only with `ValueError`; with `ProductValueRoundTrip` it is the inverse of `.value` |
| Schema.ProductValueInjective | cofactr/schema/__init__.py:39-67 | distinct product schema names have distinct string values |
| Schema.OfferFromValue | cofactr/schema/__init__.py:99-109 | `OfferSchemaName(s)` fails only with `ValueError` |
| Schema.OfferValueRoundTrip | cofactr/schema/__init__.py:99-109 | the same round trip for offer schema names |
| Schema.OrgFromValue | cofactr/schema/__init__.py:124-133 | `OrgSchemaName(s)` fails only with `ValueError` |
| Schema.OrgValueRoundTrip | cofactr/schema/__init__.py:124-133 | the same round trip for organization schema names |
| Schema.SupplierFromValue | cofactr/schema/__init__.py:147-156 | `SupplierSchemaName(s)` fails only with `ValueError` |
| Schema.SupplierValueRoundTrip | cofactr/schema/__init__.py:147-156 | the same round trip for supplier schema names |
| Schema.ProductMembersComplete | cofactr/schema/__init__.py:39-67 | every product schema name is in the 26-entry list of members |
| Schema.ProductMembersDistinct | cofactr/schema/__init__.py:39-67 | no member is listed twice, so the product enumeration has exactly 26 members |
| Schema.ProductTableDomain | cofactr/schema/__init__.py:70-96 | `schema_to_product` has an entry for every product schema name except `INTERNAL` |
| Schema.ProductDecoder | cofactr/schema/__init__.py:70-96 | looking up `INTERNAL` in `schema_to_product` is a `KeyError`; every other name gives a part decoder, never the identity |
| Schema.TablesTotal | cofactr/schema/__init__.py:112-167 | the offer, organization and supplier tables cover their whole enumerations |
| Schema.InternalIsIdentity | cofactr/schema/__init__.py:112-167 | `INTERNAL` decodes offers, organizations and suppliers with the identity function, and it is the only offer name that does |
| Schema.LogisticsReusesFlagshipSeller | cofactr/schema/__init__.py:136-167 | `LOGISTICS` uses the same decoder as `FLAGSHIP`, namely `FlagshipSeller`, for organizations and for suppliers |
| Schema.OrgAndSupplierAgree | cofactr/schema/__init__.py:124-167 | organization and supplier names with the same string value select the same decoder, and a supplier value read as an organization name gives exactly the organization with that value |
| PyInt.IntOf | cofactr/odm/part.py:113-116 | `int(x)` on a string fails only with `ValueError`, on `None`, a list or a dict always fails, and on anything else fails only with `TypeError` |
| PyInt.ParseInt | cofactr/odm/part.py:114 | `int(s)` on a string that is not a base-10 literal fails, and only with `ValueError` (never `TypeError`) |
| PyInt.DigitsValueShowNat | cofactr/odm/part.py:114 | reading back the decimal digits of a natural number gives the number |
| PyInt.ParsePlainDigits | cofactr/odm/part.py:114 | a run of decimal digits, with or without a leading `-`, parses to the number it denotes |
| PyInt.ParseShow | cofactr/odm/part.py:114 | `int(str(n)) == n` for every integer `n` |
| PyInt.ParseSkipsLeadingSpace | cofactr/odm/part.py:114 | leading whitespace does not change what `int` reads |
| PyInt.ParsedCharacters | cofactr/odm/part.py:113-116 | a string that `int` accepts holds a digit, and only digits, underscores, signs and whitespace |
| Parts.AccessorFor | cofactr/odm/part.py:12-41 | a datatype string in `TYPE_TO_VALUE_ACCESSOR` selects its accessor; any other value selects the identity, except a list or dict, which cannot be hashed (`TypeError`) |
| Parts.Access | cofactr/odm/part.py:12-44 | the identity accessor returns the datavalue unchanged; the table's accessors build a dict whose first key is `value`, and fail only with `KeyError` or `TypeError` from their lookups |
| Parts.SpecValue | cofactr/odm/part.py:35-44 | `spec_value` succeeds only if the mainsnak has `datatype` and `datavalue`, and a missing `datatype` is the first error raised |
| Parts.SpecValueQuantity | cofactr/odm/part.py:22-44 | a `quantity` gives `{value: amount, unit: unit}`, and a missing `amount` or `unit` is raised in that order |
| Parts.SpecValueMonolingualText | cofactr/odm/part.py:19-44 | a `monolingual_text` gives `{value: datavalue.value.text}` |
| Parts.SpecValuePlain | cofactr/odm/part.py:13-44 | `boolean`, `external_id`, `url` and `time` give `{value: datavalue.value}` |
| Parts.SpecValueOther | cofactr/odm/part.py:38-44 | any other datatype string returns the datavalue unchanged |
| Parts.PutGet | cofactr/odm/part.py:75 | storing a key into a dict makes the key read the new value and leaves every other key as it was |
| Parts.PutKeepsFirst | cofactr/odm/part.py:75 | storing a key never moves the dict's first key |
| Parts.SpreadGet | cofactr/odm/part.py:75 | after `{**base, **d}`, the keys of `d` read `d`'s values and every other key reads `base` |
| Parts.SpreadKeepsFirst | cofactr/odm/part.py:75 | `{"property": prop, **d}` still starts with `property` |
| Parts.SpecEntry | cofactr/odm/part.py:69-77 | an entry is a dict whose first key is `property`, and it exists only when the preferred statement has a `mainsnak` |
| Parts.SpecEntryFields | cofactr/odm/part.py:74-77 | a spec entry starts with `property`; it carries every key of the flattened spec value, and `property` is the property name unless the flattened value has its own |
| Parts.Comprehend | cofactr/odm/part.py:74-77 | a list comprehension gives one result per element, in order, each `f` of that element; an exception is the one `f` raises on the first element it fails on |
| Parts.SpecEntries | cofactr/odm/part.py:69-77 | the list has one entry per property in dict order, each the entry of that property's preferred statement; an error is that of the first property, in dict order, whose entry fails |
| Parts.Specs | cofactr/odm/part.py:65-77 | a `None` spec gives `[]`, and a result means the statements have a `spec` key |
| Parts.SpecsPerProperty | cofactr/odm/part.py:65-77 | with a spec dict, `specs` has one entry per property key, in the dict's order |
| Parts.GroupOffers | cofactr/odm/part.py:128-131 | one offer per offer of the group, in order, each paired with the group's seller |
| Parts.FlatOffers | cofactr/odm/part.py:123-133 | the flattened list has one element per offer across all groups |
| Parts.FlatOfferAt | cofactr/odm/part.py:123-133 | the `j`-th offer of group `g` sits right after all offers of the earlier groups, paired with `g`'s own seller |
| Parts.FlatOffersAt | cofactr/odm/part.py:123-133 | the flattened list holds every offer of every group, group by group and offer by offer, each with its group's seller, and nothing else |
| Parts.Offers | cofactr/odm/part.py:123-133 | the nested loops build exactly the flattened offer list; no groups (`None` or `[]`) give `[]` |
| Parts.Terminations | cofactr/odm/part.py:109-116 | a result means the statements have a `numberofpins` key |
| Parts.TerminationsCases | cofactr/odm/part.py:109-116 | a rendered decimal number gives that number, a rendered string without digits gives `None` (the caught `ValueError`), and a rendered `None`, list or dict raises `TypeError` |
| Parts.RenderedProperty | cofactr/odm/part.py:60-107 | `description`, `hero_image`, `mpn`, `mfr` and `package` render the preferred statement of their key, and fail with the lookup's error exactly when that key cannot be read |
| Parts.StatementKeysDistinct | cofactr/odm/part.py:60-107 | the rendered properties read distinct statement keys |
| Parts.PartConstants | cofactr/odm/part.py:94-144 | `documents` is `[]`, `msl` is 1, `data_age` is `None`, and `availability` is `{buyable: 0, quotable: 0, maybe: 0}` |
| Json.Lookup | cofactr/odm/part.py:37 | `v[key]` succeeds exactly on a dict holding the key and reads its member; a dict without the key is a `KeyError`, anything else a `TypeError` |
| Json.GetOr | cofactr/odm/seller.py:18 | `v.get(key, default)` is the member when the dict holds the key and the default otherwise; on anything but a dict it raises `AttributeError` |
| Json.Head | cofactr/odm/seller.py:23 | `v[0]` is the first element of a non-empty list (or first character of a string); an empty one is an `IndexError`, a dict a `KeyError`, anything else a `TypeError` |
| Sellers.Name | cofactr/odm/seller.py:14-27 | without a labels dict the name raises `AttributeError`; a truthy English label gives its `value`; without one, an aliases value that is not a dict raises `AttributeError` |
| Sellers.LabelWins | cofactr/odm/seller.py:17-20 | a truthy English label decides the name, whatever the aliases hold |
| Sellers.AliasFallback | cofactr/odm/seller.py:22-25 | without a truthy label, a truthy first English alias gives its `value` |
| Sellers.FalsyAlias | cofactr/odm/seller.py:22-27 | without a truthy label, a falsy first English alias gives `None` |
| Sellers.NoEnglishAlias | cofactr/odm/seller.py:22-27 | without a truthy label and without an `"en"` alias key, the default `[None]` makes the name `None` |
| Sellers.EmptyAliasList | cofactr/odm/seller.py:23 | an empty English alias list raises `IndexError` rather than giving `None` |
| Sellers.UnnamedFails | cofactr/odm/seller.py:9-18 | a seller built with the default `labels=None` has no usable name: `None.get` raises `AttributeError` |
| Sellers.SellerConstants | cofactr/odm/seller.py:29-53 | `accuracy_score` and `quality_score` are 100, `additional_markup` and `additional_fee` are 0, `certifications` is empty, and `buyable` is `True` |

## Left out

- cofactr/graph.py (the urllib3 HTTP client, JSON decoding, credential headers) is I/O. The cursor's `request` callback is the abstract function `fetch`.
- A `request` callback that raises, or that returns `None`, is not modelled: `fetch` is total and always returns a page.
- `fetch` returns a typed `Page`, so a response that is not a dict, or one without a `data` or `paging` key, is not modelled; the source raises `TypeError` or `KeyError` for it at cofactr/cursor.py:59-60 and cofactr/cursor.py:70. The source resets `batch_i` before it fetches, so after a failed fetch a resumed cursor would return the old page again.
- A `next` link with a `self` parameter is not modelled. `request_batch(**params)` would raise `TypeError` on it. Every other extra parameter is ignored, as the source ignores it.
- The retry and backoff policy is not modelled. It is a decorator from the tenacity library with time-based waits, and its configuration is not part of this model.
- Batch ID resolution and canonical-ID lookup (`get_products_by_ids`, `get_canonical_product_ids`) are not modelled. Their implementation is not part of this model.
- cofactr/odm/core.py is not modelled. It makes network calls fanned out over a thread pool.
- cofactr/odm/offer.py, `find_preferred`, `mainsnak_to_str` and `cofactr.kb.entity.types` are not part of this model. The first three are uninterpreted, and statements are plain JSON values.
- Parts.SpecEntries: `specs` calls `find_preferred` on every property before it calls `spec_value` on any of them. The model does both steps per property, which raises the same first error only because the uninterpreted `find_preferred` never raises.
- The per-version schema dataclasses are not modelled. They only declare fields, so each one appears as a decoder tag.
- `urlparse`/`parse_qs` are simplified. The model does not do percent-decoding, turn `+` into a space, parse the scheme or network location, or apply `max_num_fields`/`strict_parsing`. In the model, the query is what follows the first `?` and precedes the first `#`. Fields are split on `&` only, as `parse_qsl` does from Python 3.9.2 on (earlier versions also split on `;`), and fields without a value are dropped.
- Query.QueryOf: does not remove the tab, CR and LF characters that `urlsplit` deletes from a URL before splitting it, and does not raise the `ValueError` that `urlsplit` raises for an unbalanced `[` or `]` in the network location (which `__next__` would pass on), because the network location is not parsed.
- PyInt.ParseInt: does not model the interpreter's limit on the number of digits in an integer string (4300 by default since Python 3.9.14, and configurable at run time), above which `int()` raises `ValueError` and `terminations` gives `None`; `ParseShow` is stated for every integer.
- Query.First: `sys.maxsize` is taken to be that of a 64-bit interpreter.
- `int(x)` reads ASCII digits and ASCII whitespace only. Python also accepts other Unicode decimal digits and spaces, and it also converts floats and other objects that define `__int__`.
- JSON numbers are integers only. Floats are never computed with here. `additional_markup` and `additional_fee` are the integer 0.
- Offer groups are typed records with a `seller` and a list of `offers`. A group without those keys, which would raise `KeyError`, is not modelled.
- The cursor makes one fetch per page, but the model does not promise `ceil(total / batch_size)` fetches. The server decides how many entities a page holds and where the `next` links lead.
- Termination of a run without a limit needs a finite chain of `next` links. `Take`, `Drain` and `Collect` take it as a bound (`fetches`), because nothing in the source rules out a cycle of links. `EndsWithin` follows links through empty pages too, so a chain whose links cycle after an empty followed page is excluded, though the source ends that run with `IndexError` at cofactr/cursor.py:70.
