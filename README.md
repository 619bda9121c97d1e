# CloudPriceFinder core in Dafny

CloudPriceFinder is a batch job. It collects instance and service prices from cloud providers and writes one JSON dataset of them. This project models the record processing between the HTTP responses and that dataset, and proves properties of it.

- **Record validator** (`DataValidator`). `ValidateInstanceData` is the chain of checks a record must pass: the required keys, the provider and type allow-lists, the sign of `vCPU`, `memoryGiB` and `priceUSD_hourly`, and a non-blank `instanceType`. `DataValidator.ValidateDataset` is the loop that splits a list into the valid records and one error line per rejected record.
- **Currency conversion** (`CurrencyConverter`). `RateCache` is a class holding the module-level rate cache and its expiry. `GetExchangeRates` inverts fetched rates and falls back to a fixed table when the fetch fails. `ConvertCurrency` and `ConvertToUsd` scale an amount by that table.
- **Normalisation** (`DataNormalizer`). Dispatches on the provider name to the Hetzner normaliser or to one of the five placeholder normalisers. Each builds the canonical record with its defaults.
- **Orchestrator** (`Orchestrator`). `CloudDataOrchestrator` is a class whose `results` and `errors` maps are filled provider by provider. It covers the Hetzner normalise-then-validate pass, the per-provider error capture, the summary counts and price range, and the success rule of `run`.
- **Hetzner v1 collector** (`HetznerV1Client`, `HetznerV1Collect`, `HetznerV1Merge`).
  - The TTL cache (`ApiCache`) and the retry loop of `make_api_request`/`make_robot_api_request`.
  - `validate_api_response` and the `process_*` functions that join prices to resource types.
  - `parse_price`.
  - The IPv4/IPv6 merge of dedicated-server offers, kept as an insertion-ordered table updated in place.
- **Hetzner v2 collector** (`HetznerV2Client`, `HetznerV2Collect`).
  - `HetznerAPIClient`, with its own cache (`ResponseCache`), its own retry rules and the credential guards.
  - The `_process_*` record builders and the Robot product mapping.
- **Hetzner v3 collector** (`HetznerV3`). Regional pricing lists, minimum and maximum prices, the IPv6-only derivation, the location mapping, load balancers, and the rule that enables the cloud collector.
- **OCI collector** (`Oci`). The compute keyword filter, the name-based spec extraction, shape pricing, city extraction and the fallback chain of `collect_all_oci_data`.

Shared layers model Python values:
- `PyJson` holds JSON-like values, `dict.get`, `float()`, `round()` and exceptions as `Result` errors.
- `PyText` holds ASCII string operations.
- `SeqFilter` and `Tally` hold a keep-or-skip list filter and counting.
- `Http` holds request outcomes and the `2**attempt` backoff.
- `Wrappers` holds `Option`.

**Inputs become parameters.**
- The network becomes a sequence of outcomes: a status code with its body, a timeout, a connection error, another request error or an unexpected exception.
- The clock becomes a `now` argument.
- Each sleep is returned as an entry in a list of delays.
- Library calls (`hcloud`, the exchange-rate service, the OCI pricing API) become the values they would return.
- Python `float`s are exact reals.
- 429 is the Too Many Requests status of section 4 of RFC 6585.

**Behaviour of the code worth noting.**
- The validator accepts `true`/`false` where a number is required, because Python's `bool` is an `int`.
- The orchestrator records no error for an exception whose message is empty, because it tests `if error:`.
- The v1 cache treats a cached JSON `null` as a miss.
- v2 retries 403 and 404 without backoff, while v1 stops on them.
- `fetch_oci.py`'s `_fetch_compute_shapes` keeps the `None` of an incomplete shape, while the fallback list drops it.
- Two places where the code departs from what it evidently intends are listed under "## Findings".

## Model

| member | source | states |
|---|---|---|
| DataValidator.FirstMissingSpec | scripts/utils/data_validator.py:10-16 | the first missing required field is absent exactly when all five required fields are present, and when one is reported it is missing and every earlier one is present |
| DataValidator.ValidateIffWellFormed | scripts/utils/data_validator.py:33-84 | `validate_instance_data` is True exactly for a dict with the required keys, a known provider and type, positive numeric `vCPU`/`memoryGiB` when present and non-null, a non-negative numeric hourly price and a non-blank string `instanceType` |
| DataValidator.MissingFieldRejected | scripts/utils/data_validator.py:45-48 | a record lacking a required field is rejected, for the missing-field reason |
| DataValidator.UnknownProviderOrTypeRejected | scripts/utils/data_validator.py:50-58 | a provider or type outside the allowed lists makes the record invalid |
| DataValidator.NullSpecsIgnored | scripts/utils/data_validator.py:60-69 | an absent or null `vCPU`/`memoryGiB` does not affect the verdict |
| DataValidator.FirstMissingAgree | scripts/utils/data_validator.py:45-48 | dicts that agree on which required keys they hold report the same first missing field |
| DataValidator.ZeroSpecRejected | scripts/utils/data_validator.py:61-69 | a present, non-null spec of 0 is rejected |
| DataValidator.ZeroPriceAccepted | scripts/utils/data_validator.py:71-73 | an hourly price of exactly 0 passes a record that is otherwise valid |
| DataValidator.BadInstanceTypeRejected | scripts/utils/data_validator.py:75-84 | a non-string `instanceType` makes `.strip()` raise, which the handler turns into False |
| DataValidator.ValidateDataset | scripts/utils/data_validator.py:86-105 | the loop returns the valid records in order and one rejection for each invalid index, carrying its `instanceType`, or `unknown` if it has none; a non-dict element raises AttributeError |
| DataValidator.PartitionSizes | scripts/utils/data_validator.py:99-103 | every record goes to exactly one of the two outputs |
| DataValidator.AcceptedIsFilter | scripts/utils/data_validator.py:99-101 | the accepted records are exactly the inputs that validate |
| DataValidator.RejectionsAreInvalidPositions | scripts/utils/data_validator.py:99-103 | the rejections name exactly the invalid indices, each once, in increasing order |
| CurrencyConverter.Inverted | scripts/utils/currency_converter.py:53-56 | a currency gets a rate exactly when its quote is positive, and that rate is the quote's inverse |
| CurrencyConverter.TablesArePositive | scripts/utils/currency_converter.py:21-29 | every rate table that `get_exchange_rates` can return, fetched or built in, holds only positive rates, with USD at 1 |
| CurrencyConverter.FetchedTableInvertsQuotes | scripts/utils/currency_converter.py:50-58 | a fetched table maps each positively quoted currency to 1/quote |
| CurrencyConverter.RateCache.constructor | scripts/utils/currency_converter.py:16-17 | the cache starts empty with no expiry |
| CurrencyConverter.RateCache.GetExchangeRates | scripts/utils/currency_converter.py:31-75 | a fresh cache is returned unchanged; otherwise a 200 response is inverted, or else the built-in table is used, and either one is cached for one hour |
| CurrencyConverter.FetchRates | scripts/utils/currency_converter.py:42-68 | the loop over the quotes yields exactly the specified table, or None when the source falls back |
| CurrencyConverter.RateFor | scripts/utils/currency_converter.py:95-99 | the table's rate, else the built-in rate, else 1.0 |
| CurrencyConverter.ConvertCurrency | scripts/utils/currency_converter.py:77-109 | same currency returns the amount; otherwise amount × rate; an amount that cannot be multiplied is returned unchanged |
| CurrencyConverter.ConvertToUsd | scripts/utils/currency_converter.py:111-122 | `convert_currency(a, c, 'USD')`, as both ensures state |
| CurrencyConverter.TargetOnlyShortcuts | scripts/utils/currency_converter.py:89-104 | the target currency only matters through the equality test |
| CurrencyConverter.ConvertUndoesQuote | scripts/utils/currency_converter.py:54-56 | converting an amount quoted at the service's rate back to dollars returns the dollar amount |
| CurrencyConverter.DollarsKeepValue | scripts/utils/currency_converter.py:58 | USD has rate 1 in every table, so dollars keep their value |
| DataNormalizer.UsdFromEur | scripts/utils/data_normalizer.py:46-51 | a falsy euro price gives 0; a truthy one converts exactly when it is a number (otherwise TypeError), and the result is within half a unit in the last place of euro × 1.1 and non-negative for a non-negative price |
| DataNormalizer.NormalizeHetzner | scripts/utils/data_normalizer.py:43-74 | normalisation succeeds exactly when both euro prices convert, and then yields a dict |
| DataNormalizer.HetznerDefaults | scripts/utils/data_normalizer.py:55-70 | each descriptive field of a normalised record is the input's value, or its fixed default when the input lacks it |
| DataNormalizer.HetznerProvenance | scripts/utils/data_normalizer.py:46-73 | the provider tag, the dollar prices converted from the euro ones, the original euro prices, the clock reading and the raw input |
| DataNormalizer.NormalizePlaceholder | scripts/utils/data_normalizer.py:76-148 | a placeholder normaliser fails exactly when `priceUSD` is null or a dict; otherwise it records its own tag, `cloud-server`, the dollar price as given and 720 times it as the monthly price |
| DataNormalizer.NormalizeInstanceData | scripts/utils/data_normalizer.py:12-41 | `hetzner` goes to the Hetzner normaliser and each of the five other known names to its own placeholder normaliser; an unknown provider raises ValueError and a non-dict record AttributeError; a result carries the provider tag, the raw input and the clock reading |
| DataNormalizer.NormalizeDependsOnClockOnlyInStamp | scripts/utils/data_normalizer.py:72 | two normalisations of the same record differ only in `lastUpdated` |
| DataNormalizer.MissingSpecsRejected | scripts/utils/data_normalizer.py:57-58 | a Hetzner record without `vCPU` or `memoryGiB` normalises to a 0 that the validator rejects |
| DataNormalizer.WellSpecifiedHetznerAccepted | scripts/utils/data_normalizer.py:43-74 | a Hetzner record with a valid type, a non-blank name, positive specs and a non-negative hourly price normalises to a record the validator accepts |
| Orchestrator.NormalizeItem | scripts/orchestrator.py:103-157 | only a dict item can normalise, and it normalises to a dict; an item that is not a dict, or a truthy euro price that cannot be multiplied, raises and the item is skipped |
| Orchestrator.Step | scripts/orchestrator.py:159-166 | an item contributes its normalised record exactly when normalising raises nothing and the record validates |
| Orchestrator.NormalizeHetznerData | scripts/orchestrator.py:100-168 | the loop returns the kept items, normalised, in input order |
| Orchestrator.NormalizedIsFilter | scripts/orchestrator.py:100-168 | every returned record validates and is the normalised form of some input item; every item that normalises to a valid record is returned; there are never more records than items |
| Orchestrator.NewFormatKeepsFields | scripts/orchestrator.py:106-126 | a new-format item keeps all its fields except the five it overrides; `provider` becomes `hetzner`; `regions` falls back to `locations` and then to [] |
| Orchestrator.ItemPricesConverted | scripts/orchestrator.py:108-150 | in both formats the dollar prices are the rounded conversions of the euro prices, and `originalPrice` keeps the euro prices with currency EUR |
| Orchestrator.LegacyMatchesNormalizer | scripts/orchestrator.py:127-157 | a legacy item fails exactly when `normalize_instance_data(item, 'hetzner')` fails; otherwise it becomes that record with `platform` set to `cloud` |
| Orchestrator.ColumnSpec | scripts/orchestrator.py:228-240 | the grouping loops read a value from each item; they raise unless every item has a hashable value, and otherwise they see those values item by item |
| Orchestrator.PositivePricesSpec | scripts/orchestrator.py:224 | `prices` holds exactly the hourly prices above zero, and each of them comes from an item |
| Orchestrator.MinOf | scripts/orchestrator.py:247 | `min` returns an element that is at most every element |
| Orchestrator.MaxOf | scripts/orchestrator.py:248 | `max` returns an element that is at least every element |
| Orchestrator.MinOfIsFirst | scripts/orchestrator.py:247 | among equal minima, `min` returns the earliest |
| Orchestrator.CountBy | scripts/orchestrator.py:226-240 | one grouping loop computes the first-seen key order and the counts, or raises on an unreadable or unhashable value |
| Orchestrator.PositivesAreNumbers | scripts/orchestrator.py:224 | every collected price is a number |
| Orchestrator.SummaryFailsIff | scripts/orchestrator.py:213-253 | the summary can be built exactly when every record has a comparable hourly price and hashable `provider` and `type` values |
| Orchestrator.GroupByCounts | scripts/orchestrator.py:227-240 | each distinct value is listed once, in first-seen order, and the counts add up to the number of records |
| Orchestrator.SummaryCounts | scripts/orchestrator.py:242-252 | `totalInstances` is the record count; `providersCount` is the number of distinct providers; each group's counts add up to the total |
| Orchestrator.SummaryPriceRange | scripts/orchestrator.py:224-249 | the range ends are prices above zero and bound every such price; with no such price the range is 0..0 |
| Orchestrator.ValidatedSummarizable | scripts/orchestrator.py:213-253 | records that pass the validator can always be summarised, and their provider keys are known providers |
| Orchestrator.HetznerResultValid | scripts/orchestrator.py:159-160 | every record of the Hetzner result passes validation |
| Orchestrator.OutcomeOf | scripts/orchestrator.py:170-186 | a registered placeholder gives ([], None); Hetzner gives its normalised data or ([], message); an unregistered name gives a KeyError message; data is empty whenever there is an error |
| Orchestrator.FetchProviderData | scripts/orchestrator.py:170-186 | `_fetch_provider_data` never raises; it returns the outcome above |
| Orchestrator.CombineResults | scripts/orchestrator.py:269-271 | the loop concatenates the result lists in dict insertion order |
| Orchestrator.AllDataIsHetzner | scripts/orchestrator.py:269-271 | when every other provider has no data, the combined data is Hetzner's |
| Orchestrator.ResultsForStep | scripts/orchestrator.py:200-207 | adding one provider adds exactly its entry to the results |
| Orchestrator.ErrorsStep | scripts/orchestrator.py:203-204 | one provider's turn adds its error to `errors` only when the message is non-empty |
| Orchestrator.ResultsStep | scripts/orchestrator.py:203-207 | one provider's turn sets its results entry, empty on error |
| Orchestrator.ExtendStep | scripts/orchestrator.py:200-207 | dict insertion order grows one key at a time |
| Orchestrator.CloudDataOrchestrator.constructor | scripts/orchestrator.py:53-63 | results and errors start empty |
| Orchestrator.CloudDataOrchestrator.Record | scripts/orchestrator.py:201-207 | a failure with a non-empty message is stored in `errors` and leaves an empty result; otherwise the data is stored; a new key goes last in insertion order |
| Orchestrator.CloudDataOrchestrator.FetchNext | scripts/orchestrator.py:200-207 | one loop turn extends the results, the errors and the insertion order by one provider |
| Orchestrator.CloudDataOrchestrator.FetchAllProviders | scripts/orchestrator.py:188-209 | afterwards every provider has its result; `errors` holds Hetzner's message if that fetch raised with non-empty text; the returned dict is `self.results` |
| Orchestrator.CloudDataOrchestrator.GenerateSummary | scripts/orchestrator.py:211-253 | returns the specified summary, or raises where the source raises |
| Orchestrator.CloudDataOrchestrator.Run | scripts/orchestrator.py:255-304 | `run` is True exactly when the combined data is non-empty and summarises, which holds exactly when the Hetzner result is non-empty |
| Orchestrator.CloudDataOrchestrator.HetznerIsAllData | scripts/orchestrator.py:266-276 | after the fetch the combined data is the Hetzner result, and it always summarises |
| HetznerV1Client.BackoffGrows | scripts/fetch_hetzner.py:152-160 | the backoff `API_RETRY_DELAY * 2 ** attempt` starts at 1 s and grows strictly with each attempt |
| HetznerV1Client.ApiCache.constructor | scripts/fetch_hetzner.py:70 | the cache starts empty |
| HetznerV1Client.ApiCache.GetFromCache | scripts/fetch_hetzner.py:81-92 | a fresh entry is returned and kept; otherwise None is returned and an expired entry is deleted |
| HetznerV1Client.ApiCache.SetCache | scripts/fetch_hetzner.py:94-97 | stores the response under the key, stamped with the clock reading |
| HetznerV1Client.AttemptsBounded | scripts/fetch_hetzner.py:121-184 | at most `retry_count + 1` requests are sent, and at least one; a returned response is the body of some attempt answered with 200 |
| HetznerV1Client.AlwaysServerError | scripts/fetch_hetzner.py:156-161 | a server that always answers 5xx gets exactly `retry_count + 1` requests, with the rate-limit delay before each retry and the doubling backoff after every attempt but the last, and the result is None |
| HetznerV1Client.TerminalStatusStops | scripts/fetch_hetzner.py:141-164 | 401, 403, 404 or an unexpected status on the first attempt ends the request after one request with no sleep and no response |
| HetznerV1Client.LastAttemptBackoff | scripts/fetch_hetzner.py:150-161 | on the last attempt a 429 still sleeps its backoff, while a 5xx, a timeout or a connection error does not |
| HetznerV1Client.ResumeStep | scripts/fetch_hetzner.py:121-181 | one attempt of the loop: a retried attempt resumes with the next one after its delays; a final one ends the trace |
| HetznerV1Client.RetryLoop | scripts/fetch_hetzner.py:121-184 | the loop produces exactly the specified trace (result, sleeps, request count) and caches a 200 response and nothing else |
| HetznerV1Client.MakeApiRequest | scripts/fetch_hetzner.py:99-184 | a fresh non-null cached response is returned with no request; otherwise the retry loop runs after the lookup has dropped any expired entry |
| HetznerV1Client.MakeRobotApiRequest | scripts/fetch_hetzner.py:220-311 | as `make_api_request`, under the `robot_` key; with a missing credential it returns None after the cache lookup and before any request |
| HetznerV1Client.StoredIsHit | scripts/fetch_hetzner.py:81-97 | a stored response answers the same key for five minutes and no longer |
| HetznerV1Collect.ValidateApiResponse | scripts/fetch_hetzner.py:186-206 | True exactly for a dict holding every expected field |
| HetznerV1Collect.NameIndexIsLastByName | scripts/fetch_hetzner.py:524-526 | the price map indexes every name in the section, each to the last entry carrying it, and nothing else |
| HetznerV1Collect.NameIndexKeys | scripts/fetch_hetzner.py:526 | the keys of the price map are exactly the names of the entries |
| HetznerV1Collect.NameIndexLast | scripts/fetch_hetzner.py:526 | a later entry with the same name replaces an earlier one |
| HetznerV1Collect.FloatIfTruthy | scripts/fetch_hetzner.py:550-553 | a truthy price is read with `float`; a falsy one leaves the held value unchanged |
| HetznerV1Collect.PickPrimaryPrices | scripts/fetch_hetzner.py:539-553 | the price loop computes exactly the specified prices and locations, or the exception it raises |
| HetznerV1Collect.PriceStepLocations | scripts/fetch_hetzner.py:541-543 | one pass adds the entry's location, if truthy, to those collected |
| HetznerV1Collect.PriceLoopLocations | scripts/fetch_hetzner.py:540-543 | the locations are every truthy `location`, in entry order |
| HetznerV1Collect.PriceLoopKeepsFound | scripts/fetch_hetzner.py:546 | once an hourly price is held, later entries change neither price |
| HetznerV1Collect.NoOfferKeepsLastMonthly | scripts/fetch_hetzner.py:546-553 | with no hourly price on offer, the hourly price stays None and the monthly price is the last truthy one |
| HetznerV1Collect.HourlyFromFirstOffer | scripts/fetch_hetzner.py:546-553 | the hourly price is the float of the first entry offering one; the monthly price is the last truthy one up to and including that entry |
| HetznerV1Collect.ServerTypeStep | scripts/fetch_hetzner.py:530-582 | one loop pass appends the record of the next server type exactly when it is processed without an exception |
| HetznerV1Collect.ProcessServerTypesWithPricing | scripts/fetch_hetzner.py:511-585 | the loop yields exactly the specified records, or the error of an unindexable price section or a non-dict type |
| HetznerV1Collect.ServerTypeJoin | scripts/fetch_hetzner.py:532-568 | the join is by exact name: a type without a pricing entry gets None prices and no locations; one with an entry gets the prices and locations picked from it |
| HetznerV1Collect.ServerTypeNeedsKeys | scripts/fetch_hetzner.py:558-569 | a type lacking a required key is skipped and never gets a partial record |
| HetznerV1Collect.ServerTypesAreFilter | scripts/fetch_hetzner.py:528-585 | one record per type processed without an exception, and each record comes from some input type |
| HetznerV1Collect.LoadBalancerStep | scripts/fetch_hetzner.py:597-641 | one loop pass appends the next load balancer's record exactly when it is processed without an exception |
| HetznerV1Collect.ProcessLoadBalancerTypesWithPricing | scripts/fetch_hetzner.py:587-644 | the loop yields exactly the specified records |
| HetznerV1Collect.LoadBalancerJoin | scripts/fetch_hetzner.py:597-637 | a named load balancer type with a readable pricing entry always gets a record, priced from that entry |
| HetznerV1Collect.ProcessPricingEntries | scripts/fetch_hetzner.py:646-729 | each of the three section processors yields exactly the specified entries |
| HetznerV1Collect.EntriesWhenAllReadable | scripts/fetch_hetzner.py:657-667 | when every dict entry has a readable price there is one record per dict entry, in order |
| HetznerV1Collect.EntriesStopAtFailure | scripts/fetch_hetzner.py:655-670 | an unreadable price ends the loop: the entries before it are kept and none after it are recorded |
| HetznerV1Collect.EntriesShape | scripts/fetch_hetzner.py:659-666 | every record carries the processor's type, name and source, and a float price under its price key |
| HetznerV1Collect.CleanPrice | scripts/fetch_hetzner.py:984 | the cleaned text is no longer than the input and holds only digits, `,` and `.` |
| HetznerV1Collect.Replace | scripts/fetch_hetzner.py:985-986 | `replace` of single characters keeps the length |
| HetznerV1Collect.Without | scripts/fetch_hetzner.py:985 | removing a character leaves only other characters taken from the input |
| HetznerV1Collect.CleanPriceAppend | scripts/fetch_hetzner.py:984 | cleaning distributes over concatenation |
| HetznerV1Collect.CleanPriceOf | scripts/fetch_hetzner.py:984 | price characters are kept and all other characters dropped |
| HetznerV1Collect.CleanPriceSurrounded | scripts/fetch_hetzner.py:984 | only the price characters between runs of other text survive |
| HetznerV1Collect.WithoutAppend | scripts/fetch_hetzner.py:985 | removing a character distributes over concatenation |
| HetznerV1Collect.WithoutAbsent | scripts/fetch_hetzner.py:985 | removing an absent character changes nothing |
| HetznerV1Collect.PlainNumeral | scripts/fetch_hetzner.py:987 | `float` reads a numeral without sign or whitespace as the numeral itself |
| HetznerV1Collect.ParsePriceNonNegative | scripts/fetch_hetzner.py:981-988 | `parse_price` returns the default or a non-negative number, because signs are cleaned away |
| HetznerV1Collect.PointAt | scripts/fetch_hetzner.py:987 | the decimal point of `whole.frac` is found after the whole digits |
| HetznerV1Collect.ParseDecimalPoint | scripts/fetch_hetzner.py:987 | `whole.frac` denotes the decimal value of its digits |
| HetznerV1Collect.ParsePriceOf | scripts/fetch_hetzner.py:982-987 | a non-empty text other than `N/A` whose resolved cleaning parses is read as that value |
| HetznerV1Collect.ParsePriceWholeNumber | scripts/fetch_hetzner.py:981-988 | a whole number among other text is read as that number |
| HetznerV1Collect.CommaBecomesPoint | scripts/fetch_hetzner.py:986 | replacing the only comma of `whole,frac` gives `whole.frac` |
| HetznerV1Collect.ParseDecimalNumeral | scripts/fetch_hetzner.py:987 | `whole.frac` with digits on both sides is read as a decimal |
| HetznerV1Collect.NotMissing | scripts/fetch_hetzner.py:982 | a text holding a digit is neither empty nor `N/A` |
| HetznerV1Collect.ParsePriceDecimalComma | scripts/fetch_hetzner.py:981-988 | a decimal comma is read as a decimal point: `€12,50` is 12.5 |
| HetznerV1Collect.DropGroupingPoint | scripts/fetch_hetzner.py:985 | dropping the grouping point of `whole.group,frac` |
| HetznerV1Collect.DigitsHaveNoPoint | scripts/fetch_hetzner.py:985 | digits hold no decimal point |
| HetznerV1Collect.ParsePriceGroupedDecimal | scripts/fetch_hetzner.py:981-988 | with both separators, `.` groups thousands and `,` is the decimal point: `1.234,56` is 1234.56 |
| HetznerV1Merge.Table.Put | scripts/fetch_hetzner.py:1526 | assigning a dict key keeps the table well formed, sets exactly that key, and appends the key to the insertion order only when it is new |
| HetznerV1Merge.Ipv4Step | scripts/fetch_hetzner.py:1523-1530 | one IPv4 offer leaves a well-formed table (a non-dict offer raises `TypeError`, one without `instanceType` raises `KeyError`) |
| HetznerV1Merge.Ipv4Pass | scripts/fetch_hetzner.py:1523-1530 | the IPv4 loop over all offers leaves a well-formed table or stops at the first error |
| HetznerV1Merge.Ipv6Step | scripts/fetch_hetzner.py:1533-1553 | one IPv6 offer leaves a well-formed table, or raises as the dict operations do |
| HetznerV1Merge.Ipv6Pass | scripts/fetch_hetzner.py:1533-1553 | the IPv6 loop over all offers leaves a well-formed table or stops at the first error |
| HetznerV1Merge.Ipv4Loop | scripts/fetch_hetzner.py:1523-1530 | the imperative IPv4 loop yields exactly the table of the IPv4 pass, or its first error, under the alias guard as written or as intended |
| HetznerV1Merge.Ipv6Loop | scripts/fetch_hetzner.py:1533-1553 | the imperative IPv6 loop yields exactly the table of the IPv6 pass, or its first error |
| HetznerV1Merge.CollectValues | scripts/fetch_hetzner.py:1555-1561 | the output loop collects the values of exactly the keys without the `fallback_` prefix, in insertion order |
| HetznerV1Merge.MergeIpv4Ipv6Data | scripts/fetch_hetzner.py:1517-1561 | `merge_ipv4_ipv6_data` returns exactly the specified merge, errors included, with the alias guard as written (`MergeAsWritten`) or as intended (`Merge`) |
| HetznerV1Merge.Ipv4StepKeepsAliasesPrefixed | scripts/fetch_hetzner.py:1529-1530 | an IPv4 offer only ever stores an alias under a `fallback_`-prefixed key |
| HetznerV1Merge.Ipv4PassKeepsAliasesPrefixed | scripts/fetch_hetzner.py:1523-1530 | after the whole IPv4 loop, every alias entry sits under a prefixed key |
| HetznerV1Merge.Ipv6PassKeepsAliasesPrefixed | scripts/fetch_hetzner.py:1533-1553 | the IPv6 loop never creates an alias entry |
| HetznerV1Merge.ValuesAreRecords | scripts/fetch_hetzner.py:1555-1561 | filtering out prefixed keys yields no more values than keys, all of them records, when aliases sit under prefixed keys |
| HetznerV1Merge.MergeOutputsRecords | scripts/fetch_hetzner.py:1517-1561 | the merged output holds only server records, never an alias target string, with the guard as written or corrected |
| HetznerV1Merge.Ipv6StepEffect | scripts/fetch_hetzner.py:1537-1553 | an IPv6 offer whose primary key holds a record sets exactly the four IPv6 fields of it (`ipv6_pricing_available` True), keeps every other field and the key order; an offer with neither key present is appended as its own entry |
| HetznerV1Merge.Ipv6StepThroughAlias | scripts/fetch_hetzner.py:1533-1553 | an IPv6 offer matched only through its fallback alias sets exactly the four IPv6 fields of the record the alias points at, keeping the key order and every other field; an alias pointing nowhere leaves the offer to be appended as its own entry |
| HetznerV1Merge.AliasKept | scripts/fetch_hetzner.py:1529-1530 | with the corrected guard, an alias once stored is never rewritten by later IPv4 offers |
| HetznerV1Merge.AliasFrom | scripts/fetch_hetzner.py:1523-1530 | running the IPv4 loop from any offer up to the first one of a fallback key stores that offer's alias and keeps it |
| HetznerV1Merge.AliasIsFirst | scripts/fetch_hetzner.py:1529-1530 | with the corrected guard, the alias of each fallback key points at the first IPv4 offer having that fallback key |
| HetznerV1Merge.AliasKeyDiffers | scripts/fetch_hetzner.py:1530 | a `fallback_`-prefixed key differs from any unprefixed key and from its own suffix |
| HetznerV1Merge.FirstStep | scripts/fetch_hetzner.py:1523-1530 | the first IPv4 offer into an empty dict stores the offer and then its alias |
| HetznerV1Merge.SecondStep | scripts/fetch_hetzner.py:1529-1530 | a second IPv4 offer of the same fallback key rewrites the alias as written, and leaves it with the corrected guard |
| HetznerV1Merge.ScenarioMerge | scripts/fetch_hetzner.py:1517-1561 | for any two IPv4 offers sharing a fallback key and an IPv6 offer of it from a third location, the IPv6 prices land on the second IPv4 offer as written and on the first with the corrected guard |
| HetznerV1Merge.AliasGuardExample | scripts/fetch_hetzner.py:1529-1541 | AX41 offers in FSN1 and HEL1 and an IPv6 AX41 offer in NBG1: as written the IPv6 prices land on HEL1, corrected on FSN1 |
| HetznerV2Client.BackoffGrows | scripts/fetch_hetzner_v2.py:99-106 | the `2 ** attempt` backoff starts at one second and grows strictly with the attempt |
| HetznerV2Client.ResponseCache.constructor | scripts/fetch_hetzner_v2.py:45 | the module-level cache starts empty |
| HetznerV2Client.ResponseCache.GetFromCache | scripts/fetch_hetzner_v2.py:57-63 | the stored response is returned exactly when its entry is younger than the 300-second lifetime; an expired entry is reported absent and left in place |
| HetznerV2Client.ResponseCache.SetCache | scripts/fetch_hetzner_v2.py:65-67 | the response is stored under its key stamped with the current time, every other entry unchanged |
| HetznerV2Client.AttemptsBounded | scripts/fetch_hetzner_v2.py:79-112 | at most `api_retry_count + 1` requests are sent, the first after the rate-limit delay; a response is returned only as the decoded body of an attempt answered 200, and never together with an escaping exception |
| HetznerV2Client.PlainStatusesRetried | scripts/fetch_hetzner_v2.py:102-103 | a server answering every attempt with a status other than 200, 401 and 429 gets all `api_retry_count + 1` attempts, with no backoff, and the result is None |
| HetznerV2Client.AlwaysTransient | scripts/fetch_hetzner_v2.py:105-109 | when every attempt raises a `RequestException`, all attempts are made, backing off `2 ** attempt` seconds after each but the last, and the result is None |
| HetznerV2Client.FirstAttemptEnds | scripts/fetch_hetzner_v2.py:94-96 | a 401 ends the request after one attempt with None; an exception outside `requests` escapes after one attempt |
| HetznerV2Client.ResumeStep | scripts/fetch_hetzner_v2.py:79-112 | one attempt of the loop either ends the trace or resumes it at the next attempt after its delays |
| HetznerV2Client.RequestLoop | scripts/fetch_hetzner_v2.py:79-112 | the retry loop produces exactly the specified trace of results, sleeps and requests, and caches the response only when one is returned |
| HetznerV2Client.MakeRequest | scripts/fetch_hetzner_v2.py:69-112 | a fresh non-None cached response under `http_<url>_<str(headers)>` is returned without any request or sleep; otherwise the result is the retry loop's and a returned response is cached |
| HetznerV2Client.CloudApiRequest | scripts/fetch_hetzner_v2.py:114-126 | without a token nothing is looked up or sent; otherwise a request to the Cloud API URL with the bearer headers |
| HetznerV2Client.RobotApiRequest | scripts/fetch_hetzner_v2.py:128-139 | without both user and password nothing is looked up or sent; otherwise a request to the Robot API URL, cached without the credentials in the key |
| HetznerV2Collect.IndexedByName | scripts/fetch_hetzner_v2.py:184-185 | every entry of the pricing index is a pricing dict from the response carrying the name it is indexed by |
| HetznerV2Collect.ScanPrices | scripts/fetch_hetzner_v2.py:200-210 | the price loop over a pricing entry's `prices` computes exactly the specified scan, or the first exception |
| HetznerV2Collect.ScanLocations | scripts/fetch_hetzner_v2.py:201-203 | the collected locations are every truthy `location`, in entry order |
| HetznerV2Collect.HourlyFromFirst | scripts/fetch_hetzner_v2.py:205-206 | the hourly price is the net price of the first entry having `price_hourly`, and None when no entry has one |
| HetznerV2Collect.HourlyKept | scripts/fetch_hetzner_v2.py:205 | once picked, the hourly price is never replaced |
| HetznerV2Collect.MonthlyFromFirst | scripts/fetch_hetzner_v2.py:208-209 | the monthly price is the net price of the first entry having `price_monthly`, independently of the hourly one, and None when no entry has one |
| HetznerV2Collect.MonthlyKept | scripts/fetch_hetzner_v2.py:208 | once picked, the monthly price is never replaced |
| HetznerV2Collect.ProcessTypes | scripts/fetch_hetzner_v2.py:176-309 | `_process_server_types` and `_process_load_balancer_types` return exactly the specified records, errors included |
| HetznerV2Collect.ProcessTypeList | scripts/fetch_hetzner_v2.py:189-243 | the loop over types keeps one record per type whose block succeeds, in order, and fails as a whole on a non-dict type |
| HetznerV2Collect.ProcessNext | scripts/fetch_hetzner_v2.py:189-241 | one turn of the loop extends the kept records by the current type's record exactly when its block succeeds |
| HetznerV2Collect.TypeJoin | scripts/fetch_hetzner_v2.py:192-193 | a type is joined to the pricing entry carrying its name; a type without one still gets a record, with None prices and no regions |
| HetznerV2Collect.TypesAreFilter | scripts/fetch_hetzner_v2.py:189-243 | there are never more records than types; every type processed without an exception has its record in the output, and every output record comes from some type |
| HetznerV2Collect.CollectService | scripts/fetch_hetzner_v2.py:317-376 | the loop over one service's entries keeps exactly the records of the entries read without an exception, in order |
| HetznerV2Collect.CollectSection | scripts/fetch_hetzner_v2.py:316-348 | a section is read only when present and a list |
| HetznerV2Collect.ProcessPricingServices | scripts/fetch_hetzner_v2.py:310-379 | `_process_pricing_services` returns the volume records followed by the floating IP records |
| HetznerV2Collect.ServiceRegions | scripts/fetch_hetzner_v2.py:318-360 | each readable entry's record has its location, `regions` `[location]` or `[]`, and its hourly and monthly net prices |
| HetznerV2Collect.ServicesOnePerEntry | scripts/fetch_hetzner_v2.py:316-376 | when every entry of both sections is readable, there is exactly one record per volume entry and per floating IP entry |
| HetznerV2Collect.AllKeptLength | scripts/fetch_hetzner_v2.py:317-345 | a loop keeping every entry outputs as many records as entries |
| HetznerV2Collect.CollectRobotApiServers | scripts/fetch_hetzner_v2.py:403-453 | `_collect_robot_api_servers` returns nothing for a falsy or non-dict response or a non-list `product`, else one record per readable product, in order, and never raises |
| HetznerV2Collect.ProductHourly | scripts/fetch_hetzner_v2.py:421-430 | the hourly price times 720 is the monthly price when that is positive, else the hourly price is 0; the region is Germany and `raw` is the product |
| HetznerV3.GetLocationMapping | scripts/fetch_hetzner_v3.py:394-420 | the loop of `_get_location_mapping` builds exactly the specified location map |
| HetznerV3.LocationMapEntries | scripts/fetch_hetzner_v3.py:399-418 | the map has exactly the locations' names; a name in the known-locations table maps to its table entry whatever the location says; any other name maps to the place built from the last location carrying it |
| HetznerV3.LocationMapDomain | scripts/fetch_hetzner_v3.py:408-418 | a code is mapped exactly when some location has that name |
| HetznerV3.LocationMapKnown | scripts/fetch_hetzner_v3.py:409-410 | the known-locations table wins for its six codes |
| HetznerV3.LocationMapLast | scripts/fetch_hetzner_v3.py:411-418 | an unknown name maps to the fallback place of the last location carrying it: its city or else its name, its country or `Unknown`, the upper-cased first two letters of the country or `XX`, its description or `Unknown` |
| HetznerV3.BuildLocationDetails | scripts/fetch_hetzner_v3.py:174-183 | the loop building `location_details` gives exactly one detail per location code, in order |
| HetznerV3.UnknownCodeDetail | scripts/fetch_hetzner_v3.py:176-183 | a code the map does not know is shown as its own city, in country `Unknown`, country code `XX`, region `Unknown` |
| HetznerV3.KnownCodeDetail | scripts/fetch_hetzner_v3.py:176-410 | a known code listed by the library always shows the city and country code of the known-locations table |
| HetznerV3.RegionalOf | scripts/fetch_hetzner_v3.py:137-152 | a price entry contributes a regional price exactly when its location is truthy, carrying that location |
| HetznerV3.CollectRegionalPricing | scripts/fetch_hetzner_v3.py:133-152 | the loop builds `regional_pricing` as specified, and `locations_list` is exactly the locations of the regional prices |
| HetznerV3.RegionalSnoc | scripts/fetch_hetzner_v3.py:136-152 | one more price entry extends the regional pricing by its contribution, or fails with its exception |
| HetznerV3.LocationsOfSnoc | scripts/fetch_hetzner_v3.py:139 | appending a regional price appends its location |
| HetznerV3.RegionalFailsOnward | scripts/fetch_hetzner_v3.py:136-152 | once an entry raises, the whole loop raises the same exception |
| HetznerV3.RegionalIsLocatedEntries | scripts/fetch_hetzner_v3.py:136-152 | `regionalPricing` has one entry per price entry with a location, in input order, and `regions` lists exactly those locations |
| HetznerV3.Min | scripts/fetch_hetzner_v3.py:159-161 | `min` of a non-empty price list is one of the prices and no price is below it |
| HetznerV3.Max | scripts/fetch_hetzner_v3.py:160-162 | `max` of a non-empty price list is one of the prices and no price is above it |
| HetznerV3.RangeVariation | scripts/fetch_hetzner_v3.py:213-224 | the range minimum never exceeds its maximum, and `hasVariation` holds exactly when two regions differ in price |
| HetznerV3.Ipv6OnlyPrice | scripts/fetch_hetzner_v3.py:186-187 | the IPv6-only monthly price `max(0, monthly - cost)` is never negative, never above a non-negative IPv4 price, equal to the difference when positive; its hourly price is set exactly then, at the monthly price over 730.44 hours |
| HetznerV3.Ipv6OnlyRangeOrdered | scripts/fetch_hetzner_v3.py:246-252 | the IPv6-only range bounds keep the order of the IPv4 bounds |
| HetznerV3.ProcessServerType | scripts/fetch_hetzner_v3.py:124-272 | the `try` block for one server type returns exactly the specified record, skip or exception |
| HetznerV3.CollectServerTypesLoop | scripts/fetch_hetzner_v3.py:89-279 | `_collect_server_types` returns nothing when the pricing request fails or its body is unreadable, and otherwise the records of the types processed without a skip or an exception, in order |
| HetznerV3.ServerTypeSkipped | scripts/fetch_hetzner_v3.py:126-168 | a server type is skipped when its pricing entry has no `prices`, or no price entry with a location |
| HetznerV3.ServerTypePrices | scripts/fetch_hetzner_v3.py:154-241 | a server record's default prices are the cheapest region's, no region is cheaper, `regions` lists the located entries, `priceRange` holds the min and max over regions, and the IPv6-only monthly price is the minimum monthly price less 0.50 |
| HetznerV3.CollectLoadBalancerTypesLoop | scripts/fetch_hetzner_v3.py:281-382 | `_collect_load_balancer_types` returns nothing when the pricing request fails, and otherwise the records of the types processed without a skip or an exception, in order |
| HetznerV3.LoadBalancerPrices | scripts/fetch_hetzner_v3.py:324-359 | a load balancer's price is its first price entry's, never zero both hourly and monthly, and its regions are every located entry, in order |
| HetznerV3.LoadBalancerSkipped | scripts/fetch_hetzner_v3.py:319-335 | a load balancer type without `prices`, or with an empty list of them, is skipped |
| HetznerV3.CloudCollectorInit | scripts/fetch_hetzner_v3.py:54-61 | the cloud collector is constructed only when the library is available and the token is non-empty |
| HetznerV3.CloudCollectorRule | scripts/fetch_hetzner_v3.py:543-547 | the cloud collector exists exactly when cloud is enabled, the library is available, the token is non-empty and the client constructor does not raise |
| Oci.StripTrailing | scripts/fetch_oci.py:171 | `rstrip(')')` gives a prefix of the text that does not end in `)`, and everything removed is `)` |
| Oci.CityOf | scripts/fetch_oci.py:171-319 | a region name `prefix (city)` gives the city; a name without `(` is its own city |
| Oci.LowerOfUpper | scripts/fetch_oci.py:142-214 | lower-casing an upper-cased text is lower-casing the text |
| Oci.ComputeIgnoresCase | scripts/fetch_oci.py:140-147 | the compute-instance keyword test on the lower-cased name, service and SKU gives the same answer whatever the letter case of the name |
| Oci.DigitRun | scripts/fetch_oci.py:202-211 | the greedy `\d+` of the patterns takes the whole run of digits at a position |
| Oci.ExtractSpecs | scripts/fetch_oci.py:214-233 | the two pattern loops, each stopping at the first pattern that matches, compute exactly the specified vCPU and memory figures, defaulting to 1 |
| Oci.UpperHasNoLowerLetter | scripts/fetch_oci.py:214 | an upper-cased name holds no lower-case letter |
| Oci.LowerKeywordNotPrefix | scripts/fetch_oci.py:203-210 | a keyword holding a lower-case letter is never found at any position of such a name |
| Oci.LowerKeywordNeverMatchesFrom | scripts/fetch_oci.py:218-228 | a pattern whose keyword holds a lower-case letter has no match anywhere in a text without lower-case letters |
| Oci.LowerKeywordNeverMatches | scripts/fetch_oci.py:214-228 | a pattern whose keyword holds a lower-case letter never matches the upper-cased name |
| Oci.FirstMatchDrop | scripts/fetch_oci.py:217-231 | a pattern that does not match can be removed from the list without changing which pattern wins |
| Oci.AsWrittenIgnoresMixedCasePatterns | scripts/fetch_oci.py:201-233 | as written, the `vCPU`, `Core` and `GiB` patterns are dead: the extraction equals the one with only `OCPU`, `CPU` and the two `GB` patterns |
| Oci.NoDigitNoMatch | scripts/fetch_oci.py:202-211 | no pattern matches in a stretch of text without digits |
| Oci.DigitSpaceWord | scripts/fetch_oci.py:202-210 | on a digit, a space and a word, a spaced pattern matches exactly when its keyword begins the word, capturing the digit |
| Oci.VcpuAsWritten | scripts/fetch_oci.py:201-224 | as written, `4 vCPU` is read as 1 vCPU |
| Oci.VcpuCorrected | scripts/fetch_oci.py:201-224 | with the patterns in the case of the upper-cased name, `4 vCPU` is read as 4 vCPUs |
| Oci.VcpuExample | scripts/fetch_oci.py:201-224 | `4 vCPU` gives 1 as written and 4 corrected |
| Oci.GbMisses | scripts/fetch_oci.py:209-211 | neither `GB` pattern matches the upper-cased `8 GiB` |
| Oci.MemoryAsWritten | scripts/fetch_oci.py:208-231 | as written, `8 GiB` is read as 1 GB of memory |
| Oci.MemoryCorrected | scripts/fetch_oci.py:208-231 | with the patterns in the case of the upper-cased name, `8 GiB` is read as 8 |
| Oci.MemoryExample | scripts/fetch_oci.py:208-231 | `8 GiB` gives 1 as written and 8 corrected |
| Oci.OcpuDoubled | scripts/fetch_oci.py:217-224 | a name matching the `OCPU` pattern gets twice the OCPU count as vCPUs, as written and corrected alike |
| Oci.PricingItemRecord | scripts/fetch_oci.py:149-191 | a parsed pricing item is priced per month at 730.44 hours, named by its SKU or else its name, and sized by the figures in its name: by the extraction as written when `asWritten` is set, by the intended one otherwise |
| Oci.PricingItemVcpuExample | scripts/fetch_oci.py:157-191 | an item named `4 vCPU` is recorded with vCPU 1 as written and 4 with the intended patterns |
| Oci.FetchFromPricingApi | scripts/fetch_oci.py:83-119 | `_fetch_from_pricing_api` returns nothing unless the status is 200 and the body decodes; for a dict with `items`, or a list, it keeps the compute items that parse, stopping at the first item whose classification raises; names are read as written or corrected per `asWritten` |
| Oci.PricingLoopPrefix | scripts/fetch_oci.py:99-117 | the pricing loop keeps exactly the compute records of the items before the first one whose classification raises |
| Oci.Mul | scripts/fetch_oci.py:295-314 | Python `*` succeeds exactly on two numbers, and gives their product |
| Oci.Add | scripts/fetch_oci.py:295 | Python `+` succeeds exactly on two numbers, and gives their sum |
| Oci.MetadataLabels | scripts/fetch_oci.py:329-350 | the shape type is `flexible` exactly when the name contains `Flex`, and a pricing note is added exactly for free-tier shapes |
| Oci.ShapeNeedsKeys | scripts/fetch_oci.py:285-356 | a shape without `name`, `ocpu` or `memory` gives no record |
| Oci.ShapePricing | scripts/fetch_oci.py:292-314 | a shape's hourly price is its own `price_hourly`, else OCPUs times the OCPU rate plus memory times the GB rate, else 0.05; monthly is 730.44 times hourly; vCPU is the OCPU count for ARM and twice it otherwise |
| Oci.ShapeLabels | scripts/fetch_oci.py:327-350 | a shape's type is `flexible` exactly for names containing `Flex`; free-tier shapes get ` (Free Tier Eligible)` after their description and a pricing note, and other shapes neither |
| Oci.FetchComputeShapes | scripts/fetch_oci.py:121-138 | `_fetch_compute_shapes` appends every shape's result in order, a failed one as None |
| Oci.GetFallbackInstances | scripts/fetch_oci.py:358-379 | `_get_fallback_instances` keeps exactly the shapes that build a record, in order |
| Oci.ShapePaths | scripts/fetch_oci.py:121-377 | the shapes path has one entry per shape, None for a failed one; the fallback path holds only records, and every record that builds |
| Oci.CollectAll | scripts/fetch_oci.py:51-81 | `collect_all_oci_data` returns the pricing-API records when there are any, else the known-shape results, else the fallback records; with `asWritten` set, the pricing-API records are those of the program as written |
| Oci.FallbackEmpty | scripts/fetch_oci.py:358-379 | the fallback list is empty exactly when no fallback shape builds a record |
| Oci.CollectEmptyOnlyIfAllFail | scripts/fetch_oci.py:58-81 | the collection is empty exactly when the pricing API gave nothing, there are no known shapes, and no fallback shape builds |
| PyJson.Get | scripts/fetch_hetzner_v2.py:184 | `o.get(k, default)` succeeds exactly on a dict, giving the stored value or the default; on anything else it raises `AttributeError` |
| PyJson.Index | scripts/fetch_hetzner_v2.py:206 | `o[k]` succeeds exactly on a dict holding `k`, giving its value |
| PyJson.Has | scripts/fetch_hetzner_v2.py:183 | `k in o` succeeds exactly on a dict, list or string, and on a dict is key membership |
| PyJson.Float | scripts/fetch_hetzner_v2.py:206 | `float(j)` of a number is its value, and succeeds otherwise only on a string |
| PyJson.GetNested | scripts/fetch_hetzner_v2.py:320-321 | `o.get(k, {}).get(inner, default)` gives the default when `k` is absent, the inner lookup when `k` holds a dict, and raises on a non-dict |
| PyJson.Lookup | scripts/utils/data_normalizer.py:58 | `d.get(k, default)` on a dict gives the stored value or the default |
| PyJson.RoundHalfEven | scripts/utils/data_normalizer.py:61-62 | the rounded integer is within a half of the value, and a whole value rounds to itself |
| PyJson.RoundToIsNearestStep | scripts/utils/data_normalizer.py:61-62 | `round(x, places)` is a whole number of steps of `10^-places`, within half a step of `x` |
| PyJson.RoundExactStep | scripts/utils/data_normalizer.py:61-62 | a whole number of steps rounds to itself |
| PyJson.RoundToIdempotent | scripts/utils/data_normalizer.py:61-62 | rounding an already rounded value changes nothing |
| PyJson.RoundToNonNegative | scripts/utils/data_normalizer.py:61-62 | rounding keeps a non-negative price non-negative |
| PyJson.TimesInt | scripts/utils/data_normalizer.py:85 | `x * 24 * 30` of a number is its value times 720, and raises exactly on `None` or a dict |
| PyJson.ScaleNumber | scripts/utils/data_normalizer.py:85 | a number times a count is a number whose value is the product |
| PyText.AllSpacePointwise | scripts/utils/data_validator.py:76 | a text is blank exactly when every character is whitespace |
| PyText.Strip | scripts/utils/data_validator.py:76 | `strip()` gives the empty string exactly for a text made only of the characters `str.isspace` accepts, the ASCII separators `\x1c`..`\x1f` and the Unicode spaces included |
| PyText.StripLeftRemovesSpace | scripts/utils/data_validator.py:76 | only whitespace is removed on the left |
| PyText.StripRightRemovesSpace | scripts/utils/data_validator.py:76 | only whitespace is removed on the right |
| PyText.StripBothBlank | scripts/utils/data_validator.py:76 | stripping both sides leaves nothing exactly when the text is blank |
| PyText.Lower | scripts/fetch_oci.py:142-144 | `lower()` lower-cases each character in place |
| PyText.Upper | scripts/fetch_oci.py:214 | `upper()` upper-cases each character in place |
| PyText.IndexOf | scripts/fetch_oci.py:171 | the position found is that of the first `(`, and none is found only when there is none |
| PyText.ParseDecimal | scripts/fetch_hetzner.py:987 | `float` of a cleaned price text, digits with at most one decimal point, is never negative |
| PyText.NatToDigitsValue | scripts/fetch_hetzner.py:1523-1524 | the decimal rendering `str(n)` of a natural number denotes `n` |
| PyText.ParseDecimalOfNat | scripts/fetch_hetzner.py:987 | rendering a natural number and parsing it back gives the number |
| Http.Pow2Grows | scripts/fetch_hetzner.py:152 | the `2 ** attempt` backoff factor grows strictly with the attempt |
| Http.LStrip | scripts/fetch_hetzner.py:111 | `endpoint.lstrip('/')` is a suffix of the endpoint that does not start with `/` |
| Tally.CountPositive | scripts/orchestrator.py:226-231 | a provider is counted at least once exactly when some record has it |
| Tally.FirstSeenSpec | scripts/orchestrator.py:226-231 | the counter dict's keys are distinct and are exactly the values seen, in order of first occurrence |
| Tally.TotalIsLength | scripts/orchestrator.py:226-239 | the counts add up to the number of records |
| Tally.Add | scripts/orchestrator.py:229-231 | one `if k not in d: d[k] = 0; d[k] += 1` step keeps the keys in first-seen order and the counts exact |

## Left out

- Network I/O is not modelled. This covers every `requests` call, the exchange-rate fetch, the `hcloud`/`hetzner` library objects and the OCI pricing endpoint. Their answers are inputs: a sequence of outcomes for the retry loops, a status and body for OCI, quotes or failure for the rates.
- `time.sleep` and `datetime.now` are not modelled. Sleeps are returned as a list of delays, and the time is an argument.
- One request sees one reading of the clock. The cache stamp written at the end of a retry loop therefore ignores the time slept during the loop.
- Concurrency is not modelled. This covers the `ThreadPoolExecutor`/`as_completed` fan-out and its timeout, and `asyncio` in `orchestrator.py`. Providers run one after another in registration order, so completion order does not appear.
- Browser scraping in `fetch_hetzner.py` (Selenium, BeautifulSoup, pagination and toggles) is not modelled; it is glue around foreign libraries.
- The code after the returning `try` in `fetch_hetzner_dedicated` (`fetch_hetzner.py` lines 1621-1788) is not modelled, because it can never run.
- The Robot API pass of `fetch_hetzner_dedicated` before that point, including its IPv4 add-on price context, is not modelled.
- The regular-expression spec extraction from dedicated-server descriptions in `process_dedicated_server_products` is not modelled, and neither is the rest of that function.
- Prices are exact reals rather than binary floats. `round(x, n)` is round-half-even on the exact value, which can differ from CPython's rounding of the nearest double.
- Dictionaries are Dafny maps, so key order in output records is not kept. The insertion order of the v1 merge table is kept, because it decides the output order.
- Dictionary keys and `in` tests compare JSON values structurally, so `1`, `1.0` and `True` are distinct keys here although Python merges them.
- `main` functions, JSON file writing, `print` and logging are not modelled.
- Orchestrator.CloudDataOrchestrator.GenerateSummary: a failing summary is `None`; the kind of exception raised is not kept.
- Orchestrator.FetchProviderData: an unknown provider name, which the registered table never produces, is given the `KeyError` text without modelling exception formatting in general.
- Static data is not modelled: the OCI known and fallback shape lists and the v3 sample dedicated servers. They are parameters.
- `HetznerDataCollector` and the `collect_all_*` drivers of v2 and v3 are not modelled, and neither is v3's `_collect_other_services`, which returns an empty list. Only the record builders they call are.
- The v3 dedicated collector is not modelled.
- HetznerV3.CloudCollectorInit: `clientRaises` stands for any exception from the `hcloud` client constructor, reported as `TypeError`.
- HetznerV2Client.MakeRequest: a 200 response whose body is not JSON is treated like any other request exception, as `requests` 2.27 and later raise a `RequestException` subclass for it.
- Oci.Mul: Python's `*` on strings and lists (repetition) is not modelled. A shape whose OCPU count, memory or rates are such values gives no record here, while Python could build one.
- Oci.Add: Python's `+` on strings and lists (concatenation) is not modelled; such operands give `TypeError` here.
- Oci.CreateInstanceFromShape: a shape whose `name` is a list or a dict gives no record here, while Python builds one, since `'Flex' in name` is then a membership test. A number or `None` as the name raises in Python too. The shape lists are static data with string names.
- Oci.CollectAll: the `except` branch of `collect_all_oci_data` (scripts/fetch_oci.py:78-81), which returns the fallback list, has no counterpart. It cannot be reached. `_fetch_from_pricing_api`, `_fetch_compute_shapes` and `_create_instance_from_shape` each catch `Exception` themselves. `_get_fallback_instances` only loops over its static list of dicts through `_create_instance_from_shape`. So no exception leaves the `try` block.
- ASCII only: `.lower()`, `.upper()` and the regular expressions' `\d` are ASCII only here. Whitespace, for `.strip()` and `\s`, is Python's full set.
- PyText.ParseFloatText: `float()` of a text accepts an optionally signed decimal numeral only; exponents (`1e-3`), `inf`, `nan` and `_` digit separators give no value here, while Python parses them.
- PyJson.Float: a string in exponent, `inf`/`nan` or `_`-separated form gives `ValueError` here (see `PyText.ParseFloatText`), which reaches the OCI and Hetzner price paths.
- In v3 the IPv4 primary-IP cost is the constant 0.50, so its branches for a zero cost are dead. Only the live branches are modelled.

## Findings

| source | as written | input that shows it | evidently intended | confidence | as-written member | corrected member |
|---|---|---|---|---|---|---|
| scripts/fetch_hetzner.py:1529-1530 | `merge_ipv4_ipv6_data` guards the alias with `if fallback_key not in merged_servers`. That key is never stored unprefixed, so every IPv4 offer overwrites the `fallback_` alias and the last offer owns it | IPv4 offers AX41 (i7, 64GB) in FSN1 and in HEL1, plus an IPv6 AX41 offer in NBG1: the IPv6 prices land on the HEL1 offer | the first IPv4 offer keeps the alias, so the IPv6 prices land on the FSN1 offer | not executed; high | HetznerV1Merge.AliasGuardExample | HetznerV1Merge.AliasIsFirst |
| scripts/fetch_oci.py:201-233 | `_extract_specs_from_name` upper-cases the name before searching, but the patterns for `vCPU`, `Core` and `GiB` contain lower-case letters, so they can never match | `"4 vCPU"` gives vcpu 1; `"8 GiB"` gives memory 1 | vcpu 4 and memory 8, as for the all-capital patterns | not executed; high | Oci.VcpuExample | Oci.VcpuCorrected |
