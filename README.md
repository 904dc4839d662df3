# Cryptocurrency table service, modelled in Dafny

The service keeps a process-wide table from upper-case cryptocurrency symbols to
records `{name, price, market_cap}`, seeded with BTC, ETH and DOGE, and serves four
handlers over it: list the table, look a symbol up (case-insensitively), add a
record (201, or 400 for a missing field or a taken symbol) and update the price
and/or market cap of a record (200, or 404 for an unknown symbol).

Files:

- `wrappers.dfy` — `Option`, for request-body fields that may be absent.
- `ascii.dfy` — `Upper`, the upper-casing applied to every symbol, and its laws.
- `app.dfy` — the data model (`Record`, `Table`, `Response`, request bodies), the
  four handlers as pure functions: the two that read (`GetCryptos`, `GetCrypto`) map
  the table and request to a `Response`, the two that write (`AddCrypto`,
  `UpdateCrypto`) map them to an `Outcome`, a response with the new table; and
  the class `CryptoStore` whose `Add` and `Update` methods change its `cryptos` map
  in place and are proved to agree with those functions while keeping every key
  upper-case.
- `properties.dfy` — lemmas that relate several calls (look-up after add, update
  twice, case-insensitivity, listing against look-up, the symbol named in answer
  texts), a run of requests served one at a time with the invariants it keeps, and three walkthrough methods
  that replay the documented examples on a fresh store.

Request bodies are datatypes of optional fields: `None` stands for a key that is
absent or JSON `null`, which the source cannot tell apart for `name`, `price` and
`market_cap` (it uses `dict.get`). For `symbol` an absent key defaults to the empty
string. "Missing" follows the source's Python truthiness exactly: a symbol, name or
market cap is missing when absent or empty, a price only when absent, so a price of
0 is accepted. Updates test both fields with `is not None`, so an update may set
the market cap to the empty string even though an add would refuse it.

The look-up and listing handlers only read the table, so they are functions of it
(`GetCrypto(store.cryptos, s)`); the store never changes under them.

## Model

| member | source | states |
|---|---|---|
| Ascii.Upper | hello_world/app.py:35 | upper-casing keeps the length, maps each character to its upper-case form, and yields a string with no lower-case letter |
| Ascii.UpperFixesExactlyUpper | hello_world/app.py:35 | a string is upper-case if and only if upper-casing leaves it unchanged |
| Ascii.UpperIdempotent | hello_world/app.py:62 | upper-casing twice equals upper-casing once |
| App.Seed | hello_world/app.py:16-20 | the initial table holds exactly BTC, ETH and DOGE, all upper-case keys |
| App.GetCryptos | hello_world/app.py:29-30 | listing answers 200 with every key of the table mapped to its record |
| App.GetCrypto | hello_world/app.py:34-39 | 200 exactly when the upper-cased symbol is a key, then with that record and the upper-cased symbol; otherwise 404 naming the upper-cased symbol |
| App.AddCrypto | hello_world/app.py:43-57 | a missing field gives 400 and leaves the table alone, taking precedence over a taken symbol; a taken symbol gives 400 and leaves the table alone; otherwise 201, the table gains exactly the upper-cased key mapped to the new record and every other entry is kept |
| App.UpdateCrypto | hello_world/app.py:61-75 | an unknown symbol gives 404 and leaves the table alone; otherwise the key set is kept, the name is kept, price and market cap are overwritten only when given, every other entry is kept, and the answer is 200 with the updated record |
| App.CryptoStore.constructor | hello_world/app.py:16-20 | the store starts as the seed table with all keys upper-case |
| App.CryptoStore.Add | hello_world/app.py:43-57 | adding in place answers and leaves the map exactly as `AddCrypto` prescribes, and keeps every key upper-case |
| App.CryptoStore.Update | hello_world/app.py:61-75 | updating in place answers and leaves the map exactly as `UpdateCrypto` prescribes, and keeps every key upper-case |
| AppProperties.AddKeepsKeysUpper | hello_world/app.py:45-56 | an add on a table whose keys are upper-case leaves a table whose keys are upper-case |
| AppProperties.UpdateKeepsKeysUpper | hello_world/app.py:62-73 | an update on a table whose keys are upper-case leaves a table whose keys are upper-case |
| AppProperties.GetIgnoresCase | hello_world/app.py:35-36 | looking up a symbol answers the same as looking up its upper-case form |
| AppProperties.ListingAgreesWithGet | hello_world/app.py:29-37 | on a table with upper-case keys, every listed key looked up answers 200 with its listed record |
| AppProperties.AddThenGet | hello_world/app.py:34-57 | after a successful add, looking up any symbol with the same upper-case form answers 200 with the added record |
| AppProperties.AddTwiceRefused | hello_world/app.py:53-54 | repeating a successful add answers 400 for the taken symbol and changes nothing |
| AppProperties.ZeroPriceAccepted | hello_world/app.py:50 | an add with price 0 and the other fields present succeeds when the symbol is free |
| AppProperties.UpdateUnknownIgnoresBody | hello_world/app.py:62-66 | for an unknown symbol the update's answer does not depend on the body and the table is unchanged |
| AppProperties.UpdateIdempotent | hello_world/app.py:70-73 | applying the same update a second time gives the same answer and the same table as the first |
| AppProperties.UpdateThenGet | hello_world/app.py:70-75 | after an update, looking the symbol up answers 200 with the record the update answered with |
| AppProperties.Handle | hello_world/app.py:29-75 | one request step of a run, dispatching to the four handlers; serving a listing or a look-up leaves the table as it was, which holds by construction since those handlers return no table |
| AppProperties.RunKeepsKeysUpper | hello_world/app.py:16-75 | from a table with upper-case keys, any sequence of requests leaves a table with upper-case keys |
| AppProperties.RunNeverRemovesKeys | hello_world/app.py:43-75 | no sequence of requests removes a key: records are never deleted |
| App.ErrorText | hello_world/app.py:39-64 | the error texts of lines 39, 51, 54 and 64; every text is non-empty, and the duplicate and not-found texts contain the symbol they refer to |
| App.MessageText | hello_world/app.py:57-75 | the success messages of lines 57 and 75 contain the symbol of the added or updated record; other payloads carry no message |
| AppProperties.LookupTextsNameSymbol | hello_world/app.py:35-75 | a 404 from look-up or update names the upper-cased symbol in its error text, and a 200 from update names it in its message |
| AppProperties.AddTextsNameSymbol | hello_world/app.py:45-57 | an add refused as a duplicate names the upper-cased symbol in its error text, and a 201 names it in its message |

## Left out

- The web framework layer (routing, decorators, JSON encoding of responses, reading the request body, starting the server): framework code that is not part of this model; responses are modelled as a status and a payload datatype, and `ErrorText`/`MessageText` give the texts.
- The serverless adapter `lambda_handler`: it only replays an event through the framework's test client and passes status and body through.
- The two `/health` handlers: they return constants, and which one answers depends on the framework's handling of duplicate routes.
- The numeric meaning of prices: no arithmetic is done on a price, so the model never inspects it.
- AddBody, UpdateBody: a non-string name or market cap, or a non-number price, is accepted and stored by the source (only truthiness, or `is None` for price and for both update fields, is tested); the field types of `AddBody`/`UpdateBody` exclude these inputs. So, for one, an add with market cap 0 (refused by the source as falsy) or an update with a string price is not modelled.
- Ascii.Upper: models upper-casing on ASCII letters only, not Python's full Unicode `str.upper` (which also changes non-ASCII letters and may change the length, as for "ß").
- Runtime errors of malformed requests: a body that is not a JSON object, and a `symbol` that is `null` or not a string (where upper-casing raises), are not modelled.
- Aliasing of the nested record dictionaries: an update replaces the map entry with a changed record value; the response is encoded at once in the source, so the sharing is not observable.
- Concurrency: the source has no locking; operations are modelled one at a time.
