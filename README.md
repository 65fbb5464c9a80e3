# LAG-Utils service wrappers, modelled in Dafny

LAG-Utils wraps three AWS clients in small promise-returning classes:

- `DB` is a record store bound to one DynamoDB table. It has `save`, `get` and `delete`. `get` also enforces an `expiry_date` attribute (epoch seconds) on the items it reads.
- `Queue` is an SQS queue named by its name and owning account. Its URL is unknown until `getQueueUrl` succeeds, and `sendMessage` uses whatever URL the object holds at that moment.
- `Topic` is an SNS topic bound to one target ARN. `publish` sends a string payload as it is and any other payload as its `JSON.stringify` text.

The model works as follows:

- **Remote calls.** Every remote call is replaced by the reply the service calls back with (`Outcome.Reply`: `Failed(message)` or `Answered(data)`). Each wrapper returns the request it sends together with how its promise settles (`Outcome.Call`, `Outcome.Settled`).
- **Clock.** The clock reading `Date.now()` is a parameter, in milliseconds.
- **`DB` and `Topic`.** These never change after construction, so they are datatypes with member functions.
- **`Queue`.** Its `url` field is assigned when a lookup succeeds, so it is a class whose `GetQueueUrl` method modifies `url`.
- **JSON.** The payloads of a topic are JSON values (`Json.Value`). `Json.Stringify` is the compact serialiser, with `JSON.stringify`'s string escaping. A reader, `Json.Parse`, is its partner: the serialisation reads back as the value it came from.

Files:

- `outcome.dfy`: replies, settlements, errors, and the pass-through callback.
- `json.dfy`: JSON values, the serialiser, the reader, and the round-trip and layout lemmas.
- `db.dfy`: the record store and its expiry filter.
- `queue.dfy`: the queue class and its URL state.
- `topic.dfy`: the topic and its message normalisation.

## Model

| member | source | states |
|---|---|---|
| Outcome.PassThrough | src/db.js:23-25 | the callback `err ? reject(err) : resolve(data)` resolves exactly when the service answered, and every rejection is the service's own error |
| Outcome.PassThroughIsVerbatim | src/queue.js:34-36 | the reply can be recovered from the settlement: the data or the error message passes through unchanged |
| Db.EpochSeconds | src/db.js:46 | `Math.floor(ms / 1000)`: the result `s` satisfies `s*1000 <= ms < s*1000 + 1000`, also for negative readings |
| Db.ReadItem | src/db.js:49-58 | a service error rejects with that error; the get resolves iff there is an item that has not expired, and then with the whole item; any other rejection after an answer is "No matching record found" |
| Db.DB.Save | src/db.js:18-27 | sends `{Item: data, TableName: tableName}` and passes the service result or error through unchanged |
| Db.DB.Get | src/db.js:40-61 | requests `{TableName: tableName, Key: key}`; settles as `ReadItem` at the epoch second of the clock reading |
| Db.DB.Delete | src/db.js:74-85 | sends `{TableName: tableName, Key: key}` and passes the service result or error through unchanged |
| Db.NewDB | src/db.js:5-8 | the store is bound to the given table; nothing afterwards changes it |
| Db.ExpiryBoundary | src/db.js:54-57 | for a non-zero expiry date `e`, the item is returned iff the current epoch second is `<= e` (the same second still returns it), i.e. iff `nowMs < e*1000 + 1000` |
| Db.NoExpiryIsForever | src/db.js:54-57 | with no numeric expiry date, or with expiry date 0 (falsy), the whole item is returned at every clock reading |
| Db.EpochSecondsMonotonic | src/db.js:46 | the epoch second never decreases as the clock advances |
| Db.ExpiryIsFinal | src/db.js:54-55 | once a stored item reads as not found, it reads as not found at every later time |
| Db.GetErrorsAreDistinct | src/db.js:50-55 | a rejection is "No matching record found" iff the service answered, and is a service error iff the service failed |
| Db.LoanScenarios | test/db-test.js:87-150 | the test suite's reads: no expiry resolves with the item; expired ten seconds ago is not found; expiring in ten seconds resolves with the item, `expiry_date` included; no item is not found; a service error passes through; the request names the table and the key |
| Queue.UrlAfter | src/queue.js:17-20 | one lookup: a failure leaves the URL as it was; an answer replaces it with the returned `QueueUrl` (unset when the answer has none), whatever it was before |
| Queue.LastSuccessWins | src/queue.js:17-21 | after a series of lookups, the URL is the one returned by the last lookup that succeeded, whatever failed after it |
| Queue.FailuresKeepUrl | src/queue.js:17-18 | a series of failed lookups leaves the URL as it was |
| Queue.Queue.constructor | src/queue.js:5-9 | `name` and `owner` hold the arguments and `url` is unset |
| Queue.Queue.GetQueueUrl | src/queue.js:11-25 | requests `{QueueName: name, QueueOwnerAWSAccountId: owner}`; on success stores the returned `QueueUrl` and resolves with no value; on failure rejects with the service error and leaves `url` unchanged; it modifies only `url` |
| Queue.Queue.SendMessage | src/queue.js:27-38 | sends `{MessageBody: message, QueueUrl: url}` with the URL held now, unresolved or not; passes the result or error through; changes nothing |
| Queue.Scenario | test/queue-test.js:20-108 | on one queue object: a send before any lookup goes out with no URL; a failed lookup keeps it unset, a successful one sets it, a later failure keeps it; the next send goes out with the URL found |
| Json.Stringify | src/topic.js:22 | `JSON.stringify` on null, booleans, integers, strings, arrays and objects: non-empty text whose first character tells the kind of value (a digit or `-` for a number, `"`, `[`, `{`); ParseStringify, StringifyInjective, StringifyPrintable and StringifyNoSpace state the rest |
| Json.IntText | src/topic.js:22 | an integer is written as a minus sign exactly when it is negative, followed by digits only |
| Json.NatTextValue | src/topic.js:22 | the digits written for a natural number denote that number |
| Json.ReadNumberText | src/topic.js:22 | the text of an integer, followed by anything that does not continue a number, reads back as that integer |
| Json.ReadEscapeChar | src/topic.js:22 | each character's escape (`\"`, `\\`, `\b`, `\f`, `\n`, `\r`, `\t`, `\u00xx` or the character itself) reads back as that character |
| Json.ReadEscape | src/topic.js:22 | the escaped body of a string, closed by a quote, reads back as the string, leaving what follows the quote |
| Json.ReadQuoteText | src/topic.js:22 | a quoted string reads back as that string value |
| Json.EscapePrintable | src/topic.js:22 | an escaped string holds no control character |
| Json.NatText | src/topic.js:22 | the decimal text of a natural number is non-empty, all digits, and has no leading zero |
| Json.ParseStringify | src/topic.js:22 | the JSON text of every value reads back as exactly that value: member order, item order and every string are kept |
| Json.ReadStringify | src/topic.js:22 | the JSON text of a value, followed by anything that does not continue a number, reads back as the value, leaving the rest |
| Json.StringifyInjective | src/topic.js:22 | different values have different JSON texts |
| Json.StringifyPrintable | src/topic.js:22 | the JSON text holds no control character: no tab or line break |
| Json.StringifyNoSpace | src/topic.js:22 | a value whose strings and keys hold no space is written with no space at all: nothing is written between tokens |
| Json.EscapePlain | src/topic.js:22 | a string with nothing to escape is written unchanged between its quotes |
| Json.FlatObject | src/topic.js:22 | an object with one string member and nothing to escape is written `{"key":"value"}` |
| Topic.Topic.GenerateSnsMessage | src/topic.js:20-25 | the target is always the topic's ARN; a string payload is the message unchanged; any other payload is its JSON text |
| Topic.Topic.Publish | src/topic.js:10-18 | sends exactly the generated message and passes the service result or error through |
| Topic.NewTopic | src/topic.js:5-7 | the topic is bound to the given ARN; nothing afterwards changes it |
| Topic.MessageReadsBack | src/topic.js:22 | the message of a non-string payload parses back to that payload, and its target is the topic's ARN |
| Topic.MessageIsCompact | src/topic.js:22 | the message of a non-string payload holds no tab or line break, and no space unless the payload's own strings or keys hold one |
| Topic.MessageCollisions | src/topic.js:22 | two payloads give the same message only if they are equal, or one is a string whose text is the other's JSON text |
| Topic.StringExample | test/topic-test.js:76-83 | the string payload `this is a test message` is the message unchanged, sent to the topic's ARN |
| Topic.ObjectExample | test/topic-test.js:26-43 | the payload `{data: "some data"}` is sent as the message `{"data":"some data"}`, to whatever ARN the topic was built with |
| Topic.ArrayExample | test/topic-test.js:58-68 | the array `[1, 2, 3, 4, 5]` of the nested payload is written `[1,2,3,4,5]` |

## Left out

- The AWS clients, regions and credentials are left out because they are foreign calls. Each remote call is a `Reply` parameter, and the region argument of the constructors is accepted and ignored.
- Promises and callbacks are left out because they are asynchronous plumbing. The model gives each call's settlement directly. Overlapping `getQueueUrl` calls racing one another are not modelled; lookups are taken one after another, in order.
- `Date.now()` is the parameter `nowMs`.
- `saveLoan`, `saveUser`, `getLoan` and `deleteLoan` (src/db.js:10-16, 29-38, 63-72) are left out because they are broken wrappers. They read `loanCacheTable` and `userCacheTable`, which are never assigned, and `getLoan`/`deleteLoan` pass a whole parameter object as the key.
- src/item-not-found-error.js is not part of this model. src/db.js does not use it: it rejects with a plain `Error`, modelled as `LibraryError("No matching record found")`.
- Automatic URL resolution before a send, receiving or deleting messages, and batch sends are not modelled, because src/queue.js has none of them: `sendMessage` uses whatever URL the object holds.
- An `expiry_date` of 0 is treated as "never expires", because src/db.js:54 tests the attribute for truthiness before comparing it.
- Db.ExpiryDate: only a numeric `expiry_date` is compared. JavaScript's truthiness and `<` coercion for a string, boolean or object `expiry_date` is not modelled, and such an item is treated as having no expiry.
- Json.Value covers null, booleans, integers, strings, arrays and objects. Fractional numbers, `undefined`, functions, symbols, cycles, `toJSON` and wrapper objects are left out.
- Json.IntText: writes every integer's exact digits. JavaScript numbers are doubles, so integers above 2^53 in magnitude are left out: some cannot be held at all, and the others are written as the shortest digits that round to the same double (`2**64` gives `18446744073709552000`), or in exponent form from 1e21.
- Json.Value admits objects with two members of the same key, which no JavaScript object has. The serialiser writes them both; such values are outside what the library can be handed.
- Object members are taken in the order the engine enumerates them. JavaScript's rule that integer-like keys come first is not modelled.
- Strings are sequences of Unicode scalar values, so the lone surrogates that `JSON.stringify` writes as `\udxxx` cannot occur.
- The whole nested payload of test/topic-test.js:57-73 is not stated as one concrete lemma: the equation between its serialisation and the 110-character literal of line 68 does not settle within the solver's resource limit. Its array part is Topic.ArrayExample; the rest (member and item order kept, no whitespace, integers written as digits) is stated for all values by Json.ParseStringify, Json.StringifyNoSpace, Json.StringifyPrintable and Json.NatText.
