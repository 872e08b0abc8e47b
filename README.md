# xAPI client core in Dafny

This project models the non-network logic of the `XAPI` client class of a
small Experience API (xAPI) library. xAPI clients send "actor verb object"
activity statements to a Learning Record Store (LRS). The model covers:

- **Client construction** (`new XAPI({ endpoint, username, password, actor })`).
  Four presence checks run in order and each throws its own `Error`. The
  endpoint is then normalised so that it ends with `/statements`, and the
  four fields are stored.
- **Statement construction** (`buildStatement({ verb, object, result, context })`).
  A truthy `verb` and `object` are required. The actor always comes from the
  client. `result` and `context` become keys only when they are truthy. The
  statement is stamped with a timestamp.
- **Sending** (`sendStatement`). It applies the `null` defaults, builds the
  statement, and only then calls `send`. A build failure therefore issues no
  request. `send` encodes the credentials with `btoa` before it calls
  `fetch`, so credentials outside Latin-1 also throw before any request.

Files:

- `js.dfy` (module `Js`): the JavaScript values the client handles
  (`JsValue`), ECMAScript truthiness (`Truthy`), property lists in insertion
  order with `Keys` and property reads (`Get`), the `&&` operator (`And`),
  the properties an object spread copies (`SpreadProps`), and thrown
  exceptions as a `Result`.
- `endpoint.dfy` (module `Endpoint`): `endsWith` and endpoint normalisation.
- `statement.dfy` (module `Statements`): the builder `Build`, the statement
  record with `Option` fields for `result` and `context`, and the object
  literal it stands for (`ToObject`), with its key order.
- `xapi.dfy` (module `Xapi`): the constructor's outcome as a function
  (`Configure`), the class `Client` with the four fields the constructor
  assigns, `NewClient` (the constructor with its throwing checks),
  `BuildStatement`, `Send` and `SendStatement`.

Modelling choices:

- Every JavaScript value is a `JsValue`. A key the caller omits from an
  argument object reads as `Undefined`, as destructuring does in JavaScript.
- The system clock (`new Date().toISOString()`) becomes a `timestamp`
  string parameter. It is passed through and not interpreted.
- The network is reduced to a ghost log `requests` on the client. `Send`
  appends one `Post` request that carries the URL, the credentials and the
  statement, unless `btoa` rejects the credentials. It then throws a
  `DOMException` named "InvalidCharacterError" and logs nothing.
- A truthy endpoint that is not a string makes `endpoint.endsWith(...)`
  throw a `TypeError`. This happens after all four presence checks have
  passed, and the model includes it.
- `Statement.obj` is the statement's `object` key. `object` is a reserved
  word in Dafny.
- `buildStatement` takes no actor argument. The statement's actor is always
  the client's stored actor (index.js:18, 24).
- Every error the code throws itself is a plain `Error` with a message
  string (index.js:4-7, 20), so the model has `Error(message)` and no
  error classes.

## Model

| member | source | states |
|---|---|---|
| Js.Truthy | index.js:4-7 | A value is truthy exactly when it is not one of undefined, null, false, 0, "" or NaN. The `!x` checks and `x && …` spreads use this test. |
| Js.Latin1Join | index.js:34 | The joined credential text `username:password` is Latin-1 exactly when both parts are. |
| Endpoint.Normalize | index.js:9-11 | The stored endpoint ends with "/statements" and starts with the supplied endpoint. It equals the supplied endpoint exactly when that already ends with "/statements". Otherwise it is the supplied endpoint followed by "/statements". |
| Endpoint.NormalizeIdempotent | index.js:9-11 | Normalising an already normalised endpoint returns it unchanged. |
| Endpoint.NormalizeAppendsAtMostOnce | index.js:9-11 | The suffix is appended at most once: the result ends with "/statements/statements" exactly when the input did. |
| Endpoint.NormalizeExamples | __test__/xapi.spec.js:6-11 | The test suite's endpoint "https://example.com/xapi" is stored with "/statements" appended. An endpoint already ending with "/statements" is stored as given. |
| Xapi.Configure | index.js:3-15 | Construction throws "Missing endpoint", "Missing username", "Missing password" or "Missing actor" for the first falsy field in that order. With all four fields truthy and a non-string endpoint it throws the `endsWith` TypeError. Otherwise it succeeds with the normalised endpoint and the other three fields exactly as supplied. |
| Xapi.ConfigureMissingIff | index.js:4-7 | Construction throws one of the "Missing" errors if and only if some field is falsy. |
| Xapi.ConfigureRoundTrip | index.js:9-15 | Constructing a client from a constructed client's own fields gives the same fields back, so the endpoint is not suffixed twice. |
| Xapi.NewClient | index.js:3-16 | The constructor's checks, in source order, throw exactly what `Configure` throws. On success the new client's fields are `Configure`'s result, it keeps the endpoint-suffix invariant `Valid`, and it has issued no request. |
| Xapi.Client.constructor | index.js:9-15 | The field assignments store the normalised endpoint and the supplied username, password and actor, and establish `Valid`. |
| Xapi.Client.BuildStatement | index.js:18-31 | `buildStatement` returns `Build` applied to the client's stored actor and changes no field of the client. |
| Statements.Build | index.js:18-31 | It throws "verb and object are mandatory in a statement" if and only if verb or object is falsy. On success the statement's actor is the client's actor, and its verb, object and timestamp are the inputs. `result` (and `context`) is present if and only if it was truthy, and then holds the input value. |
| Statements.SpreadIfTruthy | index.js:27-28 | An optional part of the statement record is present exactly when the caller's value is truthy, and then holds that value. |
| Statements.SpreadMatches | index.js:27-28 | Evaluating the literal's `...(v && { key: v })` with JavaScript's `&&` and object-spread rules gives exactly the property list the record's optional part stands for: none for every falsy value (including "", whose spread would copy its characters if it were truthy), and the single property `key: v` otherwise. |
| Statements.ToObject | index.js:23-30 | The returned statement is an object with four properties plus one for each optional part that is present. |
| Statements.ToObjectKeys | index.js:23-30 | The statement object's keys are, in order: actor, verb, object, then result and context only when present, then timestamp. |
| Statements.ToObjectKeysDistinct | index.js:23-30 | No key occurs twice in a statement object. |
| Statements.ToObjectLayout | index.js:23-30 | States the position of each property in the statement object. A key that is absent occurs at no position. |
| Statements.ToObjectGetMandatory | index.js:24-26 | Reading actor, verb, object and timestamp from the statement object gives the statement's actor, verb, object and timestamp string. |
| Statements.ToObjectGetResult | index.js:27 | Reading `result` gives its value when present and `undefined` when absent. |
| Statements.ToObjectGetContext | index.js:28 | Reading `context` gives its value when present and `undefined` when absent. |
| Statements.BuildOptionalKeys | index.js:27-28 | In a built statement object the `result` key is present if and only if the caller's `result` was truthy, and `context` likewise. A present key reads back as the caller's value, so no null or other falsy value is ever emitted. |
| Xapi.WithSendDefaults | index.js:54 | The default parameters keep verb and object, and replace an omitted (undefined) `result` or `context` by `null`. Any other supplied value, falsy ones included, is kept unchanged. They never change whether `result` or `context` is truthy, and a truthy value is passed on unchanged, so the defaults cannot add or alter an optional key of the statement. |
| Xapi.EncodableJoined | index.js:34 | For string credentials, checking each part separately is the same as `btoa`'s check of the joined text `username:password`. |
| Xapi.EncodableExamples | __test__/xapi.spec.js:6-11 | The test suite's credentials "user" and "pass" pass `btoa`. A password containing the euro sign does not. |
| Xapi.SendDefaultsPreserveBuild | index.js:54-55 | The `null` defaults of `sendStatement` produce the same statement as passing the omitted values as undefined. |
| Xapi.SendWithoutOptionalsOmitsKeys | index.js:54-55 | `sendStatement` with only a verb and an object builds an object whose keys are exactly actor, verb, object and timestamp. |
| Xapi.Client.Send | index.js:33-44 | If a string credential has a character outside Latin-1, `btoa` throws an InvalidCharacterError and no request is logged. Otherwise exactly one POST is appended to the log. It goes to the stored endpoint, which ends with "/statements", and carries the stored credentials and the statement. |
| Xapi.Client.SendStatement | index.js:54-56 | A falsy verb or object throws the builder's error and issues no request, whatever the credentials. A statement that builds but has credentials `btoa` rejects throws the InvalidCharacterError and issues no request. Otherwise exactly one request to a "/statements" URL is issued, carrying the statement built from the defaulted arguments. The client's fields are unchanged and it stays valid. |

## Left out

- `send`'s response handling (index.js:46-51): reading `response.ok`, `response.status`, `response.text()` and `response.json()`, and the "xAPI error <status>: <text>" error. It depends on the ambient `fetch` and on the remote server. The model records only that the request was issued.
- Header construction in `send` (index.js:34, 38-43): the Base64 text `btoa` produces, the header strings and `JSON.stringify` of the body are calls into the JavaScript runtime. A request carries the credentials and the statement instead. `btoa`'s rejection of characters outside Latin-1 is modelled.
- Xapi.Encodable: treats every non-string credential as ASCII text, which holds for booleans, numbers and plain objects ("[object Object]"). Arrays whose elements hold non-Latin-1 text are not modelled. Neither is an object with its own `toString`, which could also make the template literal throw a `TypeError`.
- Timestamp generation (index.js:29): `new Date().toISOString()` reads the system clock. It is a parameter, and its ISO-8601 format is not modelled.
- `Verbs` (index.js:64-85): a constant table of verb objects with no logic.
- Statement retrieval (`getStatements`) and its query-filter and cursor handling: the test suite calls it, but index.js has no implementation of it, so there is nothing to model.
- Async behaviour: `send` and `sendStatement` return promises. The model treats them as sequential steps whose thrown errors are `Throws` results.
- JavaScript number details: numbers are reals plus NaN. -0 collapses to 0 and BigInt `0n` is absent. Neither changes truthiness for the values the model has.
- Objects that define their own `endsWith`: every truthy non-string endpoint is modelled as lacking `endsWith` and throwing a `TypeError`. The case where such an object's method would be called is not modelled.
- Aliasing and later mutation: every value is an immutable `JsValue`. In JavaScript the stored actor and the statement's verb and object are references the caller still holds, so a later change to them shows up in statements built or sent afterwards. That is not modelled. Neither is reassignment of the public fields (such as `xapi.endpoint = ...` after construction). `Client.Valid` assumes that the fields keep the values the constructor stored.
- Xapi.Client.Send and Xapi.Client.SendStatement: `JsValue` has no BigInt, no Symbol and no cyclic value. In JavaScript, `send` throws a `TypeError` before `fetch` in two such cases. A Symbol credential fails at the template literal (index.js:34). A statement that `JSON.stringify` cannot serialise fails at index.js:43: one holding a BigInt such as `result: 1n`, a cycle, or a throwing `toJSON` or getter. The "exactly one request" promise covers only statements JSON can serialise and credentials that convert to a string.
- A missing constructor or `buildStatement` argument (calling with `undefined`): destructuring it throws a `TypeError`. The model always receives an argument record.
