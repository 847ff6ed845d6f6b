# FIPE client session, modelled in Dafny

The `FipeAPI` class of `fipeapi/api.py` is a client session for the FIPE
vehicle-price service (Fundação Instituto de Pesquisas Econômicas, Brazil).
A session holds:

- a table of reference periods (one numeric code per month and year);
- a selection context: reference code, vehicle type, brand and model;
- four in-process memo dicts: `_marcas`, `_modelos`, `_anos_modelo` and `_preco`;
- an optional Redis store.

Each query builds a key from the selection, then looks in the memo dict,
then in the store, then asks the provider. It reshapes the answer and keeps
it in both tiers. The setters match free text against the provider's lists.
The price query first checks the (year, fuel) pair against the listed model
years.

The model has three layers.

- **The class.** `Api.FipeAPI` keeps the source's fields and updates them in
  place. `Api.Transport` stands for the provider and logs every request sent.
  `Api.Store` stands for Redis. Each method of `FipeAPI` states its result, the
  new field values and the requests it sent. It states them as the function of
  module `Sessao` for the same operation, applied to the old state.
- **The session as functions.** `Sessao` writes every operation as a function
  from the session state to a `Step`: the result (a value or one of the
  client's errors), the next state and the requests sent.
- **The properties.** These are lemmas over those functions, in
  `Propriedades`, `Referencia`, `Normaliza` and `Chaves`.

Modules:

- `Wrappers`: `Option`.
- `Fipe`: the entities, the errors and the requests.
- `PyText`: the Python built-ins the client relies on: `strip`, `lower`,
  `split`, `in`, `int()` and `str()`.
- `Seqs`: first-match index and all-or-nothing conversion.
- `Chaves`: the cache keys.
- `Referencia`: the reference-period resolver.
- `Normaliza`: reshaping payloads, and the matching loops.
- `Sessao`: the session functions.
- `Propriedades`: the session lemmas.
- `Api`: the classes.

Inputs from outside the code become parameters:

- The current date is a `Date` argument.
- The month-name table `meses_do_ano` is a constant of the session. `fipeapi/utils.py` is not part of this model.
- The provider is a fixed map from request to answer. A missing entry means the POST came back with a status other than 200.
- The environment variables `USE_REDIS` and `REDIS_HOST`, and whether Redis answered, are constructor arguments.

Behaviour of the code worth knowing:

- `seleciona_tipo_veiculo` does not check the connection.
- `seleciona_referencia` does not check the connection when a table is already loaded. It fetches the table only when the table is empty, and it re-checks the table's freshness only on that path.
- The concatenated cache keys can collide: `Chaves.ChaveModelosCollide` exhibits two scopes with one models key.

## Model

| member | source | states |
|---|---|---|
| Api.Transport.Post | fipeapi/api.py:471-487 | the answer is the provider's answer for that request (none unless status 200), and the request is appended to the log |
| Api.Store.Get | fipeapi/api.py:425-434 | a read yields the stored value exactly when the key is present and its read does not fail |
| Api.Store.Set | fipeapi/api.py:400-415 | a write succeeds exactly when it does not fail, and only a successful write changes the store |
| Api.FipeAPI.constructor | fipeapi/api.py:165-216 | the cache is in use exactly when `USE_REDIS` trimmed and lowercased is "true", a non-empty host is given and the store answered; the session starts with a cleared selection, an empty table and empty memo dicts |
| Api.FipeAPI.LimpaDadosSelecionados | fipeapi/api.py:141-147 | the new state is `Sessao.Reset` of the old one |
| Api.FipeAPI.SelecionaTipoVeiculo | fipeapi/api.py:293-302 | result and new state are those of `Sessao.SelectVehicleType` |
| Api.FipeAPI.VerificaCondicoesPesquisa | fipeapi/api.py:342-367 | the outcome is `Sessao.Conditions` of the current selection |
| Api.FipeAPI.PegaCache | fipeapi/api.py:417-440 | the value read is `Sessao.CacheGet`: nothing when the cache is off, the read fails or the key is absent |
| Api.FipeAPI.SalvaCache | fipeapi/api.py:396-415 | the store becomes `Sessao.CachePut`; the answer is true exactly when the cache is on and the write succeeds |
| Api.FipeAPI.PegaCacheTabela | fipeapi/api.py:442-469 | answer and new state are those of `Sessao.CachedTable` |
| Api.FipeAPI.AtualizaTabelaReferencia | fipeapi/api.py:489-523 | result, new state and requests are those of `Sessao.RefreshTable` |
| Api.FipeAPI.PegaCodigoReferencia | fipeapi/api.py:218-278 | the result is `Referencia.ResolveReference` of the table, the arguments and today |
| Api.FipeAPI.SelecionaReferencia | fipeapi/api.py:280-291 | result, new state and requests are those of `Sessao.SelectReference` |
| Api.FipeAPI.PegaMarcas | fipeapi/api.py:525-574 | result, new state and requests are those of `Sessao.LookupBrands` |
| Api.FipeAPI.PegaModelos | fipeapi/api.py:576-640 | result, new state and requests are those of `Sessao.LookupModels` |
| Api.FipeAPI.PegaAnosModelo | fipeapi/api.py:642-721 | result, new state and requests are those of `Sessao.LookupYears` |
| Api.FipeAPI.VerificaAnoModelo | fipeapi/api.py:334-340 | result, new state and requests are those of `Sessao.CheckYear` |
| Api.FipeAPI.ConsultaPrecoVeiculo | fipeapi/api.py:723-807 | result, new state and requests are those of `Sessao.QueryPrice` |
| Api.FipeAPI.PrecoDeAnoListado | fipeapi/api.py:749-807 | once the selection and the fuel are checked: the model-year check, then the price, as `Sessao.QueryPrice` |
| Api.FipeAPI.PrecoAposVerificacoes | fipeapi/api.py:757-807 | the memo, store and provider part of the price query, as `Sessao.PriceAfterChecks` |
| Api.FipeAPI.ConsultaFipe | fipeapi/api.py:773-807 | the price request and the storing of its answer, as `Sessao.FetchPrice` |
| Api.FipeAPI.SelecionaMarca | fipeapi/api.py:304-317 | result, new state and requests are those of `Sessao.SelectBrand` |
| Api.FipeAPI.SelecionaModelo | fipeapi/api.py:319-332 | result, new state and requests are those of `Sessao.SelectModel` |
| Referencia.BuscaCodigo | fipeapi/api.py:265-270 | the loop leaves the code of the first entry whose trimmed label is the search label, or 0 when there is none |
| Referencia.MissingMonthDefaults | fipeapi/api.py:223-224 | a missing month, or one below 1, resolves as the current month |
| Referencia.OutOfBoundsRejected | fipeapi/api.py:223-259 | a month above 12, a future year, or a year before the first year of the series is an `IncorrectValue` |
| Referencia.InBoundsIsScan | fipeapi/api.py:234-278 | within bounds the result is the scan for the effective month and year; the first year is consulted only for an explicit year |
| Referencia.UnreadableOldestYear | fipeapi/api.py:245-251 | an explicit year together with an unreadable oldest entry yields the `False` of line 251, modelled as `Ok(None)` |
| Referencia.ResolvedIsFirstMatch | fipeapi/api.py:261-278 | a resolved code is non-zero and is the code of the first entry whose trimmed label is "MonthName/year" |
| Referencia.ScanNoMatch | fipeapi/api.py:265-277 | no matching label means `ValueNotFound` |
| Referencia.ScanFirstMatch | fipeapi/api.py:267-277 | the first matching entry decides, even when its code is 0 (`ValueNotFound`) and a later entry matches too |
| Referencia.SearchLabelInjective | fipeapi/api.py:261 | with distinct month names free of `/`, distinct (month, year) pairs give distinct search labels |
| Referencia.WireLabelSplit | fipeapi/api.py:458-460 | a label "MonthName/YYYY" with trailing whitespace splits into the month name and a year text that reads back as the year |
| Referencia.WireLabelStrip | fipeapi/api.py:268 | trimming such a label gives back the search label |
| Referencia.WireNewestIsFresh | fipeapi/api.py:457-462 | a table whose newest entry is labelled with today's month and year passes the freshness check |
| Referencia.WireOldestYear | fipeapi/api.py:246 | the first year is read back from an oldest entry labelled the provider's way |
| Seqs.FirstIndex | fipeapi/api.py:308-312 | the index found satisfies the test and no earlier index does; there is none exactly when no element satisfies it |
| Seqs.MapAll | fipeapi/api.py:569-570 | the conversion succeeds exactly when every element converts, and then it is the element-wise conversion |
| Normaliza.NormalizaMarcas | fipeapi/api.py:565-570 | the loop builds `Seqs.MapAll` of the brand reshaping |
| Normaliza.NormModels | fipeapi/api.py:635-637 | one model entry per item, in order, whose code is the item's `Value` and whose name is the item's `Label`, both as sent: the name is not trimmed (unlike a brand's) and the code not yet converted |
| Normaliza.ModelCodeRoundTrip | fipeapi/api.py:326 | `int()` of a model code gives back the integer whether it was sent as a number or as its decimal text with trailing whitespace |
| Normaliza.NormalizaModelos | fipeapi/api.py:635-637 | the loop builds `Normaliza.NormModels` |
| Normaliza.NormalizaAnos | fipeapi/api.py:709-718 | the loop builds `Seqs.MapAll` of the model-year reshaping |
| Normaliza.BrandRoundTrip | fipeapi/api.py:569-570 | a brand code sent as text, with trailing whitespace, reads back as that code, and the name is trimmed |
| Normaliza.YearRoundTrip | fipeapi/api.py:713-718 | a value "Y-F" written from a non-negative year and fuel reads back as that year and fuel, keeping label and raw value |
| Normaliza.YearWithoutDashRejected | fipeapi/api.py:714-716 | a value without `-` is rejected (Python raises on `_s[1]`) |
| Normaliza.PrimeiraMarca | fipeapi/api.py:306-312 | the loop finds the `Seqs.FirstIndex` of the brands whose lowercased name is the query or contains it |
| Normaliza.PrimeiroModelo | fipeapi/api.py:321-327 | the same for models |
| Normaliza.MatchesIsContainment | fipeapi/api.py:310 | "equal or contains" is the same as "contains" |
| Normaliza.EmptyQuerySelectsFirst | fipeapi/api.py:306-312 | an empty or all-whitespace query selects the first brand |
| Normaliza.ExactNameSelected | fipeapi/api.py:321-327 | asking for a model by its listed name, stripped and lowercased as the setter does, finds that model or an earlier one whose name contains the query |
| Normaliza.QueryIsStrippedLower | fipeapi/api.py:321 | stripping then lowercasing gives the same query as lowercasing then stripping |
| Normaliza.QueryIgnoresCase | fipeapi/api.py:306-310 | two spellings with the same lowercase give the same query |
| Normaliza.ContemAno | fipeapi/api.py:336-340 | the loop answers true exactly when some listed entry has that year and fuel |
| Chaves.RedisKeyInjective | fipeapi/api.py:401 | distinct cache keys give distinct store keys |
| Chaves.ChaveMarcasInjective | fipeapi/api.py:536 | with a one-digit vehicle type, the brands key determines vehicle type and reference |
| Chaves.ChaveModelosCollide | fipeapi/api.py:595-597 | two different scopes, (reference 12, brand 3) and (reference 1, brand 23), share one models key |
| Chaves.ChavePrecoIsNotChaveAnos | fipeapi/api.py:757-761 | a price key never equals a model-years key built from non-negative codes |
| Chaves.ChaveTabelaIsolated | fipeapi/api.py:131 | the reference-table key never equals a lookup key |
| PyText.ParseShowPadded | fipeapi/api.py:570 | `int()` reads back `str(n)` followed by whitespace as `n` |
| PyText.ParseShow | fipeapi/api.py:715-716 | `int(str(n)) == n` |
| PyText.StripPadded | fipeapi/api.py:268 | `strip()` removes exactly the whitespace added after a string without whitespace at its ends |
| PyText.LowerIdempotent | fipeapi/api.py:321-324 | lowercasing an already lowercased query or name changes nothing |
| PyText.StripIsSubstring | fipeapi/api.py:321-325 | a stripped string is always `in` the string it came from |
| PyText.SubstringBasics | fipeapi/api.py:310 | the empty string is in every string, and every string is in itself |
| Propriedades.VehicleTypeChecked | fipeapi/api.py:293-302 | a type outside {1, 2, 3} is an `IncorrectValue` and changes nothing; 1, 2 or 3 is stored and answers true |
| Propriedades.ResetClears | fipeapi/api.py:141-147 | the five selection codes become `None`; connection, table, memo dicts and store stay |
| Propriedades.ResetBlocksQueries | fipeapi/api.py:342-367 | after a reset every query fails at its first guard, changes nothing and sends nothing |
| Propriedades.GuardOrder | fipeapi/api.py:342-367 | the checks run connection, reference, vehicle type, in that order; the brand and model guards come after them |
| Propriedades.GuardsBlock | fipeapi/api.py:586-593 | a query whose guard fails raises that guard's error, changes nothing and sends nothing |
| Propriedades.BrandsKeepSelection | fipeapi/api.py:525-574 | the brands lookup changes neither the selection nor the table |
| Propriedades.ModelsKeepSelection | fipeapi/api.py:576-640 | the models lookup changes neither the selection nor the table |
| Propriedades.YearsKeepSelection | fipeapi/api.py:642-721 | the model-years lookup changes neither the selection nor the table |
| Propriedades.CheckYearKeepsSelection | fipeapi/api.py:334-340 | the model-year check changes neither the selection nor the table |
| Propriedades.PriceKeepsSelection | fipeapi/api.py:723-807 | the price query changes neither the selection nor the table |
| Propriedades.QueryPriceListed | fipeapi/api.py:749-807 | once the checks pass, the price query's result and state are those of the last step, and its requests are the check's followed by the last step's |
| Propriedades.QueryPriceUnlisted | fipeapi/api.py:749-755 | a failing model-year check fails the query, with the check's state and requests |
| Propriedades.LookupRequests | fipeapi/api.py:557-558 | each lookup sends at most one request, of its own kind |
| Propriedades.YearsLookupRequest | fipeapi/api.py:698-699 | the model-year check sends at most one request, a model-years request |
| Propriedades.MemoHit | fipeapi/api.py:538-541 | a scope found in the memo dict is answered from it, changing nothing and sending nothing |
| Propriedades.BrandsMemoised | fipeapi/api.py:572-574 | a successful brands lookup leaves its result in `_marcas` under its key, and nothing else there changes |
| Propriedades.ModelsMemoised | fipeapi/api.py:638-640 | the same for `_modelos` |
| Propriedades.YearsMemoised | fipeapi/api.py:719-721 | the same for `_anos_modelo` |
| Propriedades.BrandsIdempotent | fipeapi/api.py:536-547 | a repeated brands lookup returns the same list, changes nothing and sends nothing |
| Propriedades.ModelsIdempotent | fipeapi/api.py:599-608 | the same for models |
| Propriedades.YearsIdempotent | fipeapi/api.py:673-682 | the same for model years |
| Propriedades.CachedEmptyIsMiss | fipeapi/api.py:545 | an empty list in the store is a miss: the provider is asked |
| Propriedades.CachedEmptyTableIsMiss | fipeapi/api.py:447 | an empty stored reference table is a miss as well |
| Propriedades.CacheRoundTrip | fipeapi/api.py:396-440 | with working reads and writes, the store gives back what was written under a key |
| Propriedades.CachePutFrames | fipeapi/api.py:401 | writing under one key leaves every other key as it was |
| Propriedades.StoreServesNewSession | fipeapi/api.py:543-547 | brands fetched and stored by one session serve a later session with an empty memo, without a request |
| Propriedades.FuelCheckedFirst | fipeapi/api.py:742-747 | a fuel outside {1, 2, 3} fails before any lookup |
| Propriedades.ListedYearAccepted | fipeapi/api.py:334-340 | every (year, fuel) pair the model-years lookup lists passes the model-year check, and with a valid fuel the price query goes on to its price step with the check's requests first |
| Propriedades.UnlistedYearRejected | fipeapi/api.py:749-755 | an unlisted (year, fuel) pair is an `IncorrectValue`, and no price request is sent |
| Propriedades.PriceAfterChecksSends | fipeapi/api.py:779-799 | the last step sends at most one price request, for the year and fuel asked and with the name of the `tipos` table, and keeps the selection |
| Propriedades.PriceRequestedOnlyWhenListed | fipeapi/api.py:742-799 | a price request is sent only for a valid fuel and a listed (year, fuel) pair, and it is the last request, for that year and fuel |
| Propriedades.PriceRequestIsLast | fipeapi/api.py:797-799 | after the model-years request, a price request can only be the last step's, which ends the requests |
| Propriedades.PriceRequestPassedChecks | fipeapi/api.py:742-755 | a query that sends a price request has passed the guards, the fuel check and the model-year check |
| Propriedades.UncheckedSendsNothing | fipeapi/api.py:726-747 | without a brand, a model or a valid fuel nothing is sent |
| Propriedades.UnlistedSendsOnlyYears | fipeapi/api.py:749-755 | a failing model-year check sends at most the model-years request |
| Propriedades.StoredPriceGoesToAnosModelo | fipeapi/api.py:768-771 | a price found in the store is returned and memoised in `_anos_modelo`, not in `_preco` |
| Propriedades.PriceAfterChecksIdempotent | fipeapi/api.py:763-806 | repeating the last step on the state it leaves gives the same price, changes nothing and sends nothing |
| Propriedades.PriceIdempotent | fipeapi/api.py:763-806 | asking for the same price twice gives the same price, and the second query changes nothing and sends nothing; a price that came from the store is read from it again, so this rests on the store and its failing keys staying as they were |
| Propriedades.PriceOkPassedChecks | fipeapi/api.py:726-755 | a query that answers with a price has passed every check |
| Propriedades.SelectBrandFirstMatch | fipeapi/api.py:304-317 | success exactly when some brand matches; the code stored is that of the first match in provider order; otherwise `IncorrectValue` with the selection unchanged; a lookup error is passed on |
| Propriedades.SelectModelFirstMatch | fipeapi/api.py:319-332 | the same rule for models, except that the first match's code goes through `int()`: a readable code is stored, an unreadable one is `Malformed` with the selection unchanged |
| Propriedades.ListedModelSelected | fipeapi/api.py:319-332 | asking for a model by a name the models lookup lists always finds one, and selects it whenever the codes up to that model are readable |
| Propriedades.RefreshKeepsSelection | fipeapi/api.py:489-523 | the table refresh changes no selection field |
| Propriedades.SelectReferenceWithTable | fipeapi/api.py:280-291 | with a table loaded nothing is sent, and the code stored is exactly the resolver's |
| Propriedades.SelectReferenceRefreshes | fipeapi/api.py:282-290 | with an empty table it refreshes first (at most one table request, and none without a connection), then stores the code resolved against the new table |
| Propriedades.RefreshNeverFalse | fipeapi/api.py:283-289 | the refresh never answers false, so the `ValueNotFound` raised for a false refresh never happens |
| Propriedades.FreshStoredTableAdopted | fipeapi/api.py:506-508 | a fresh stored table is adopted without a request |
| Propriedades.StaleStoredTableReplaced | fipeapi/api.py:506-522 | a stale stored table is adopted, then replaced by the provider's table; if that request fails it stays |
| Propriedades.ContextValidAfterSetters | fipeapi/api.py:293-302 | reset and the vehicle-type setter keep the vehicle type among {1, 2, 3} |
| Propriedades.ContextValidAfterSelection | fipeapi/api.py:304-332 | the brand and model setters keep that invariant |
| Propriedades.ContextValidAfterReference | fipeapi/api.py:280-291 | the reference setter keeps it |
| Propriedades.ContextValidAfterLookups | fipeapi/api.py:525-807 | every lookup and the price query keep it |
| Propriedades.PriceRequestNamesVehicle | fipeapi/api.py:779-792 | under that invariant every price request carries a non-empty name from the `tipos` table |
| Propriedades.PriceRequestsNamed | fipeapi/api.py:779-792 | the price requests after the model-years request carry the `tipos` name of their vehicle type |

## Left out

- Exceptions raised by `self._session.post` (line 473), such as a connection error or a timeout: Python lets them reach the caller as `requests` exceptions, while the model's provider has no answer for the request and the client reports `RequestFailed`.
- HTTP transport (`_prepara_conexao`, `_conectar`, `status_conexao`, cookies and headers): the provider is a fixed map from request to answer, and the connection is a boolean given at construction.
- Form fields that do not depend on the selection (`modeloCodigoExterno`, `tipoConsulta` and the empty fields) are not part of a request.
- Redis connection set-up (`ConnectionPool`, `time()`, host, port and database): the store is a map with sets of keys whose reads or writes fail. Those sets are fixed for the whole session.
- JSON encoding on the way to and from the store: a stored value comes back as written.
- A stored value of another kind than the reader expects is treated as a miss. In Python it would be returned as is. The kinds can meet on one key because the concatenated keys collide across kinds: the brands key of (type 1, reference 123) and the models key of (type 1, reference 12, brand 3) are both "1123". On such a key Python's `pega_modelos` returns the stored brands list and `seleciona_modelo` then fails with a `KeyError` on `m['modelo']`; the model asks the provider instead.
- A provider payload of an unexpected shape is `Malformed`, raised as soon as it arrives. Python raises a `KeyError` or `TypeError`, sometimes only later.
- A JSON `null` reference table is modelled as the empty table. Both are falsy in Python.
- `_anos_modelo` holding a price (the quirk of lines 770-771): `pega_anos_modelo` then answers `Malformed`. Python would return the price dict and fail later, in `_verifica_ano_modelo`. `pega_anos_modelo` reaches such an entry only when a price key equals a model-years key, which `Chaves.ChavePrecoIsNotChaveAnos` rules out for non-negative codes, so for those the quirk does not affect `pega_anos_modelo`.
- Propriedades.PriceIdempotent: holds only while the store stays as this session left it. The model has no other client writing the shared store, and no read that fails later after succeeding earlier. A price found in the store is memoised in `_anos_modelo`, not `_preco` (lines 768-771), so a repeat query reads the store again. If that read raises a `RedisError`, or another client has changed the key, Python goes on to the provider and sends a price request.
- Logging and log-level selection: side effects only.
- `__del__`: it only closes the connection.
- `_salva_codigo_fipe`: not modelled. With the cache in use it writes a `tabela-fipe` record under the `CodigoFipe` key of the shared store (lines 811-823); the model's store never receives that write. Its exceptions are all swallowed, so its result does not reach the caller.
- The convenience wrappers of `fipeapi/__init__.py`: they only construct a session and call the setters.
- `fipeapi/utils.py` is not part of this model. `meses_do_ano` is the constant `months` of the session, with 12 entries.
- `datetime.today()` is a `Date` parameter.
- A model `Value` that is a JSON float or boolean: `Fipe.Scalar` holds a number as an integer or a string; `int()` of a float truncates it in Python.
- PyText.ParseInt: does not model underscores between digits or non-ASCII digits, which Python's `int()` also accepts.
- PyText.Lower: covers ASCII and Latin-1 capitals only, not the rest of Unicode case mapping.
