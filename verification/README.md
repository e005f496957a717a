# BitSkins API client: request pipeline model

This project models the request pipeline of the `BitSkins` JavaScript client class (`index.js`) in Dafny. Each facade method, such as `buyItem` or `withdrawItem`, does three things:

- it names one fixed remote operation;
- it may join array-valued options into comma-separated strings;
- it hands off to `_call`.

`_call` then works in two steps:

1. It builds the URL `https://bitskins.com/api/v1/<operation>/?api_key=<key>&code=<code>%qs` and replaces the `%qs` placeholder with `'&' + stringify(options)`, or with nothing when options are absent.
2. It classifies the transport's answer, and the first match wins:
   - a transport error;
   - a truthy `body.data.error_message`, even on HTTP 200;
   - a status other than 200;
   - otherwise success, with the body passed on unchanged.

Modules:

- `Wrappers`: `Option`.
- `JsValue`: the JavaScript values involved, with their language conversions:
  - truthiness;
  - property reads;
  - string conversion, which arrays do as `join(',')`;
  - integer-to-decimal conversion and its inverse;
  - `join` and its inverse `split`.
- `Flatten`: per-key array flattening of the options object.
- `Endpoint`: the URL template and `String.prototype.replace` with a string pattern, which replaces the first occurrence only.
- `Classifier`: the raw transport outcome, the rejection reasons and the first-match decision.
- `Facade`: the seventeen methods of the class, with the operation each one sends, the keys each one flattens, request preparation, and a whole call with the transport as a parameter.

Inputs the client gets from libraries are parameters of the model:

- `totp.now()` is the `code` string.
- `qs.stringify` is a function `Params -> QueryText`.
- The HTTP round trip is a function from a URL to a `Raw` outcome.

Notes on the behaviour as written:

- `withdrawItem` sends `modify_sale_item`, not `withdraw_item` (index.js:246), even though its doc comment links the `withdraw_item` endpoint. The model keeps what the code does. `Facade.WithdrawItemIsModifySaleWithoutPrices` shows the effect: when `prices` is not an array, `withdrawItem` sends exactly the request `modifySale` would.
- A response body that is `null` or `undefined` with no transport error makes `body.data` throw a TypeError inside the callback, so the promise never settles. This is the `Threw` outcome.
- An options object that is present but empty still adds a trailing `&` to the URL.
- The replacement targets the first `%qs` in the whole template. An API key containing `%qs` therefore captures the query string, and the template's own placeholder stays in the URL (`Endpoint.PlaceholderInKey`).
- The class has seventeen methods, `getAccountBalance` through `getTradeDetails`, and the model covers those. Some endpoints have no method in `index.js` and are not modelled: buy orders, bitcoin deposits and coupons (including coupon-code flattening).
- No `app_id` is injected.
- The status check is `!== 200`, not a test for any 2xx status.

## Model

| member | source | states |
|---|---|---|
| JsValue.DecimalRoundTrip | index.js:62 | the decimal notation of a natural number reads back as that number |
| JsValue.IntToStringRoundTrip | index.js:62 | an integer's notation, sign included, reads back as the integer |
| JsValue.IntToStringInjective | index.js:62 | distinct status codes are written differently |
| JsValue.SplitThenJoin | index.js:186-187 | joining the comma-split pieces of any string gives that string back |
| JsValue.JoinThenSplit | index.js:186-187 | joining comma-free items and splitting the result gives back the same items, complete and in their original order |
| JsValue.ArrayOfStringsToString | index.js:186-190 | an array of strings converts to exactly the comma join of the strings |
| Flatten.FlattenedSplitsBack | index.js:186-190 | flattening a list of comma-free strings loses nothing: splitting the flattened string at its commas gives back the list, complete and in order |
| Flatten.FlattenKey | index.js:186-187 | flattening one key keeps the options absent or present as they were and keeps the key set; it changes only that key's value, and only when that value is an array |
| Flatten.FlattenKeys | index.js:186-190 | flattening a list of keys keeps the key set and every unlisted value; each listed key ends up holding its flattened value |
| Flatten.FlattenIdempotent | index.js:186-187 | a second flattening pass with the same keys changes nothing |
| Flatten.ListSameAsJoinedString | index.js:186-190 | passing a list under a flattened key leaves the same options as passing its comma join as a string |
| Flatten.ExtraKeyWithoutArray | index.js:186-190 | also listing a key whose value is not an array, or which is missing, leaves the flattened options the same |
| Endpoint.IndexOf | index.js:51 | the index found is an occurrence of the pattern with no occurrence before it; no index is found only when the pattern occurs nowhere |
| Endpoint.ReplaceFirst | index.js:50-51 | without an occurrence of the pattern the string comes back unchanged; otherwise the text before the first occurrence is kept, the replacement follows it, and then the text after that occurrence, and the length changes by the difference of replacement and pattern lengths |
| Endpoint.FirstOccurrence | index.js:51 | an occurrence with none before it is the one the search reports |
| Endpoint.Url | index.js:50-51 | when the placeholder does not occur before its own slot, the URL is the template prefix followed by the query suffix |
| Endpoint.PlaceholderAtEnd | index.js:50-51 | the placeholder appended to a placeholder-free prefix is found at its own slot, and replacing it yields prefix plus replacement |
| Endpoint.NoPercentIsPlaceholderFree | index.js:50 | a string without '%' cannot contain the placeholder |
| Endpoint.UrlOfPlainParts | index.js:50-51 | with operation, key and code free of '%', the URL is base, operation, key and code in order, followed by '&' and the encoded options when options are given, and by nothing when they are absent |
| Endpoint.EmptyOptionsTrailingAmpersand | index.js:51 | an empty options object yields a trailing '&', and absent options yield no suffix |
| Endpoint.PlaceholderAfterHead | index.js:50-51 | the first "%qs" after a '%'-free head is found right after that head, whatever follows it, and replacing it leaves head and tail around the replacement |
| Endpoint.PlaceholderInKey | index.js:50-51 | an API key containing "%qs" receives the query string in place of that "%qs", and the template's placeholder stays in the URL |
| Classifier.DomainError | index.js:58 | a domain error is reported exactly when the body is an object whose data is a truthy object holding a truthy error_message, and the reported value is that `body.data.error_message` itself, which is truthy |
| Classifier.Classify | index.js:55-64 | a transport error rejects with that error; the outcome is the thrown TypeError exactly when there is no transport error and the body is null or undefined; otherwise a domain error rejects with its message converted to a string; a resolution carries the raw body and implies status 200; a status rejection carries the raw status, which is not 200 |
| Classifier.TransportErrorFirst | index.js:55-56 | with a transport error, status and body do not affect the outcome, and the call rejects with that same error |
| Classifier.DomainErrorWinsOverStatus | index.js:58-59 | a body with a domain error rejects with the message converted to a string, under any status including 200 |
| Classifier.EmptyMessageIsNoError | index.js:58-64 | an empty-string error_message is not an error: the call resolves on 200, and otherwise rejects for its status |
| Classifier.ResolvedIff | index.js:55-64 | the call resolves if and only if there is no transport error, the body is not nullish, the body has no domain error and the status is 200; it then resolves with the body unchanged |
| Classifier.StatusFailureIff | index.js:61-62 | the call rejects for its status if and only if nothing earlier matched and the status is not 200; the error message is "Invalid status code: " followed by the status |
| Classifier.StatusMessageInjective | index.js:62 | different statuses give different rejection messages |
| Classifier.NotEnoughBalanceOn200 | index.js:58-59 | a 200 answer whose body carries error_message "Not enough balance" rejects with that message |
| Classifier.ServerErrorWithoutMessage | index.js:61-62 | a 500 answer without a domain error rejects with "Invalid status code: 500" |
| Facade.Prepare | index.js:42-51 | options are sent exactly when the method takes them and they are given; the key set and every unflattened key are kept; each flattened key holds the flattened value of what the caller passed, so an array becomes its comma join and any other value is kept; for '%'-free parts the URL is base, operation, key, code and the query suffix |
| Facade.Call | index.js:42-68 | for every method, with the raw answer the transport gives for the prepared URL: a transport error rejects with that error; the call throws exactly when there is no transport error and the body is null or undefined; a domain error rejects with its message as a string; the call resolves exactly when there is no transport error, the body is not nullish, there is no domain error and the status is 200, and then with that body; it rejects for its status exactly when nothing earlier matched and the status is not 200, carrying that status |
| Facade.OperationNamesPlain | index.js:78-316 | every operation name is non-empty and free of '%', so the URL shape of `Facade.Prepare` holds for every method whenever key and code are free of '%' |
| Facade.FlattenedKeys | index.js:103-264 | each method flattens only keys among `names`, `item_ids` and `prices`, and none twice |
| Facade.SameRequest | index.js:42-51 | two methods that send the same operation and the same options prepare the same request |
| Facade.FlatteningTable | index.js:103-264 | `names` is flattened only by getMarketData; `item_ids` only by buyItem, sellItem, modifySale, withdrawItem and bumpItem; `prices` only by buyItem, sellItem and modifySale; no other key is flattened |
| Facade.WithdrawItemSendsModifySale | index.js:241-246 | withdrawItem sends modify_sale_item, and withdrawItem with modifySale is the only pair of methods that send the same operation |
| Facade.WithdrawItemIsModifySaleWithoutPrices | index.js:222-246 | when `prices` is not an array, withdrawItem prepares exactly the request modifySale would |
| Facade.NoOptionsEndToEnd | index.js:78-94 | getAccountBalance and getAllItemPrices send only key and code, whatever options are passed; a 200 answer without a domain error resolves with the body unchanged |
| Facade.BuyItemJoinsIdsAndPrices | index.js:184-192 | buyItem with item_ids [1, 2] and prices ["1.00", "2.00"] sends item_ids "1,2" and prices "1.00,2.00" |

## Left out

- One-time code generation. `new TOTP(secret)` and `totp.now()` (index.js:8, 25, 50) implement RFC 6238 in a library that is not part of this model. The code is an opaque string input, and the client record keeps only the API key.
- Query-string encoding (`qs.stringify`, index.js:51). This is a foreign library, modelled as an uninterpreted function. Its range is restricted to strings without '$', because the encoder percent-escapes '$'. As a result, the `$` replacement patterns of `String.prototype.replace` are not modelled.
- The HTTP transport, the 30-second timeout, the User-Agent header and JSON decoding (index.js:26-32, 53). This is I/O through a foreign library. The transport is a function from the URL to the raw outcome.
- Promise and callback machinery (index.js:44, 53). Outcomes are the plain `Outcome` datatype.
- Non-integer numbers, NaN and the full number-to-string algorithm. JSON numbers are integers in the model.
- Options passed as a truthy non-object, such as a string or a number. Options are either absent or an object.
- Properties inherited through the prototype chain. Only own properties of objects are read.
- The in-place mutation of the caller's `options` object. Flattening returns the updated map. For the fifteen methods that take options, `Dispatch.options` is what the caller's object holds after the call. `getAccountBalance` and `getAllItemPrices` never touch the caller's object; for them `Dispatch.options` is `None`, meaning nothing is sent.
- Property order. Options are an unordered map, and the query-string encoder is a function of that map. In JavaScript, `qs.stringify` writes properties in insertion order, so two objects with the same properties in a different order can produce different query strings. The URL equalities (`Facade.SameRequest`, `Facade.WithdrawItemIsModifySaleWithoutPrices`, `Flatten.ListSameAsJoinedString`) therefore hold for one and the same caller object, not across objects that were built in a different order.
