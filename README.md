# mongo_wrapper: sort fields, index models, find-or-insert and the sequence counter

This project models the parts of the `mongo` Go package (a thin wrapper
around the MongoDB Go driver) that carry logic of their own:

- **Sort-field parsing** (`splitSortField`): a field name with an optional
  leading `+` or `-` becomes a key and a direction, 1 or -1.
- **Index-model construction** (`ColClient.CreateIndex`): an empty list of
  `Index` values is refused with "index is empty"; otherwise each `Index`
  becomes one model whose key document lists its fields, in order, each
  parsed as a sort field, with the same unique flag.
- **Find-or-insert** (`ColClient.FindOrInsert`): one atomic
  findAndModify with upsert, `$setOnInsert` and return-after. The
  collection is a map from the identity the filter selects (the unique
  index) to the document. An existing document is returned and nothing
  changes; otherwise the candidate is inserted and returned.
- **Sequence numbers** (`DbClient.NextSeqNo`): one atomic findAndModify
  with upsert, `$inc seq 1` and return-after on the document
  `{_id: name}` of the counter collection `_m_counters`. A database is
  modelled as a map from collection names to counter maps.

How each store round trip ends is a parameter of each store call
(`Store.Attempt`): of `FindOrInsert`, `NextSeqNo` and the database `Drop`.
It is `Applied` when the update committed and its reply
decoded. It is `Rejected(e)` when the store refused the update or could not
be reached, so nothing was written. It is `AppliedThenFailed(e)` when the
update committed but an error came back anyway, for example a dropped
connection before the reply or a reply that does not decode into the
caller's value. In both error cases the operation passes the store's error
back unchanged. `NextSeqNo` then returns 0; after a commit, the number it
drew is skipped for good. A refused call leaves the stored documents
exactly as they were; a drop that reaches the store removes everything.

Handles are opened on an existing database or collection: the constructors
take the documents already stored.

Runs of calls are modelled as sequences applied one atomic step at a time
(`Counter.Run`, `Client.SetOnInsertAll`). The counter lemmas cover every
interleaving of calls for many names, with any failures. The find-or-insert
lemma covers every run of calls for one identity, with any candidates and
any failures: a refused first call lets a later candidate win, and a call
that committed before its error has still stored its candidate.

`NextSeqNo` always writes to the constant `CounterCollection`
(counter.go:13) and never reads the handle's `counterCol` field. The
counter test sets that field to `test_counter` (counter_test.go:13), and
the redirect has no effect. The model follows the code.
`Counter.NextSeqNoScenario` shows that `test_counter` is left as it was
while `_m_counters` holds the count. The test's cleanup
(counter_test.go:15-16) calls `Drop` on the collection client for
`test_counter`. `ColClient` has no `Drop` of its own, so this is the
`DbClient.Drop` it embeds (client.go:22-25, 48-50), and it drops the whole
database, `_m_counters` included, when the drop reaches the store; the
test ignores the drop's error. `Counter.CounterTestRerun` shows that a
second run of the test on the same database draws 1 and 2 again when the
first run's cleanup succeeds, and carries on at 3 and 4 when it is refused.

Files: `wrappers.dfy` (Option, Result, Error), `store.dfy` (module `Store`:
how a round trip ends), `client.dfy` (module
`Client`, for client.go), `counter.dfy` (module `Counter`, for
counter.go).

## Model

| member | source | states |
|---|---|---|
| Client.SplitSortField | client.go:95-111 | the direction is always 1 or -1, and -1 exactly when the field starts with `-`; a leading sign is removed exactly once, and nothing else is ever removed |
| Client.FormatSortField | client.go:91-94 | specification partner with no counterpart in the code: writes a key in the signed notation the comment describes; the result is one character longer than the key and ends with the key |
| Client.SplitEmptyField | client.go:96-99 | the empty field gives key `""` and direction 1 |
| Client.SplitAscendingPrefix | client.go:101-103 | a leading `+` is removed exactly once and gives direction 1 |
| Client.SplitDescendingPrefix | client.go:104-106 | a leading `-` is removed exactly once and gives direction -1 |
| Client.SplitDoubleMinus | client.go:104-106 | `--a` gives key `-a` with direction -1 |
| Client.SplitUnsigned | client.go:96-100 | a non-empty field whose first character is not a sign is kept whole, direction 1 |
| Client.SplitFormatRoundTrip | client.go:95-110 | splitting a formatted key gives back the key and direction, for both directions |
| Client.CreateIndex | client.go:119-142 | fails with "index is empty" exactly when no index is given; otherwise one model per index in input order, each with one key per field in order, equal to the parsed sort field, and the same unique flag |
| Client.SetOnInsert | client.go:172-177 | after an upsert the identity is present and the returned document is the one stored for it (return-after) |
| Client.SetOnInsertFinds | client.go:172-176 | an identity already stored: the stored document is returned and the collection is unchanged, whatever the candidate |
| Client.SetOnInsertCreates | client.go:172-176 | an absent identity: the candidate is returned, exactly one entry is added, and every other entry keeps its document |
| Client.SetOnInsertIdempotent | client_test.go:313-319 | a second call with the same identity and a different candidate returns what the first returned and changes nothing |
| Client.FindOrInsertStep | client.go:173-176 | the upsert takes effect exactly when it reaches the store; the caller gets the upserted document only when no error came back, and otherwise the store's own error |
| Client.FirstCandidateWins | client.go:172-176 | over any run of calls for one identity, with any candidates and failures, the identity ends with the document stored first, or else the candidate of the first call that reached the store; every successful call returns exactly that document, every failed call its own error, and a run where nothing reached the store changes nothing |
| Client.ColClient.constructor | client.go:56-58 | a client opened on a collection sees the documents already stored in it |
| Client.ColClient.FindOrInsert | client.go:173-177 | the new collection and the result are those of one FindOrInsertStep; a store error comes back unchanged; the upsert has taken effect exactly when it committed before the error; without error the stored document is returned untouched, or the candidate is inserted under the absent identity and returned |
| Client.FindOrInsertScenario | client_test.go:284-321 | on a collection without `test_key`, the unique index on `key` builds one ascending model; both calls for `test_key` return the first document (`value` = `test_value`) and the collection gains exactly one document |
| Counter.Increment | counter.go:14-22 | the returned number is the old value plus one (1 for a name never seen), equals the value stored afterwards, and no other name's counter changes |
| Counter.Step | counter.go:14-27 | a call that commits advances the name's counter; only one that also replies without error returns the new value, every other returns 0; a rejected call writes nothing |
| Counter.ErrorOf | counter.go:22-25 | the error returned is absent exactly when the round trip succeeded, and is otherwise the store's own error |
| Counter.DbClient.constructor | client.go:41 | a handle opened on a database sees the counter documents already there, and has `counterCol` set to `_m_counters` |
| Counter.DbClient.NextSeqNo | counter.go:12-28 | always acts on `_m_counters`; on success the name's counter goes up by one and the new value is returned; on an error, 0 and the store's error come back, and the counter has advanced only if the update committed; a refused call changes nothing at all; no other collection changes |
| Counter.RunNeverRepeats | counter.go:14-27 | in any interleaving of calls for many names, with any failures, each name's counter advances once per committed call, and the numbers returned for it are strictly increasing, above its starting value and at most its final value |
| Counter.RunIssuesConsecutive | counter.go:14-22 | when no call for a name fails after committing, its successful calls receive exactly the next consecutive numbers in order, and the counter ends at the last one |
| Counter.FailedCallsChangeNothing | counter.go:22-25 | a failed call returns 0; one rejected before reaching the store leaves every counter as it was |
| Counter.FreshNameCountsFromOne | counter_test.go:20-34 | `n` successful calls on a name not seen before return `1, 2, …, n` |
| Counter.NextSeqNoScenario | counter_test.go:8-35 | on a database where `test_seq` was never drawn, two calls return 1 and then 2; the redirected `test_counter` collection is left as it was and `_m_counters` holds `test_seq` at 2 |
| Counter.DbClient.Drop | client.go:48-50 | the store's error comes back unchanged; a drop that reaches the store removes every collection, the counter collection included; a refused one changes nothing |
| Counter.RunCounterTest | counter_test.go:13-34 | the test's two draws are the stored value of `test_seq` plus one, then one more; its cleanup, through the `Drop` the collection client inherits, leaves the database empty when it reaches the store, and `test_seq` at the second draw when it is refused |
| Counter.CounterTestRerun | counter_test.go:8-35 | when the first run's cleanup reaches the store, a second run of the counter test on the same database draws 1 and then 2, whatever the database held at first; when that cleanup is refused, the second run draws the next two numbers after the first run's |

## Left out

- Connection setup, ping and disconnect (`NewDbClient` apart from the `counterCol` it sets, `Close`, `NewCollection`, `ColClient.Close`): network I/O.
- `CreateCollection`: a passthrough to the driver with no logic of its own. `Collection` appears only as the `ColClient` constructor, which opens a client on the documents already stored. `Drop` is modelled only on the counter side (`Counter.DbClient.Drop`), and `Client.ColClient` has no `Drop`: the documents of find-or-insert are not tied to a database.
- `ServerVersion`: a remote admin command and a BSON lookup.
- `InsertOne`, `UpdateOne`, `FindOne`, `FindAll`, `DeleteOne`: passthroughs to the driver.
- Client.CreateIndex: the driver call `Indexes().CreateMany` and any error it returns are not modelled; the method stops at the index models it would pass.
- Client.ColClient.FindOrInsert: the filter is reduced to the identity key of the unique index; the merging of the filter's equality fields into the inserted document and the generated `_id` are not modelled.
- Counter.DbClient.NextSeqNo: the `uint32` decode of `seq` and the server-side integer type are not modelled; counters are unbounded naturals.
- Concurrency: each call is one atomic step; runs of calls are sequences in the order the store applied them. Linearizability itself is the store's per-document atomicity and is assumed.
- Context cancellation and timeouts.
- Strings are sequences of characters; Go inspects the first byte, which is the same for the ASCII signs `+` and `-`.
