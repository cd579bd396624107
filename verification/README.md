# Verified model of the Text-to-SQL core

A Dafny model of the parts of a Text-to-SQL system whose correctness rests on an argument rather than on
one reading: matching of results under tolerances, join search over foreign keys, table reranking, the caches
of model and datasource runtimes, the MySQL connection pool, prompt selection under a token budget, rank
fusion, schema authorization, the repair protocol, hashed byte streams, and retrieval metrics.

Check everything with `dafny verify dfyconfig.toml`.

## How the model is laid out

| files | part of the system |
|---|---|
| `Matching`, `Comparator`, `ComparatorLaws`, `ComparatorColumns` | comparison of a predicted with a gold result |
| `GraphSearch`, `TableSelection` | foreign-key graph, shortest join paths, choice of tables, join paths |
| `Bridges`, `Rerank`, `RerankLaws` | distances, required bridges, reranking and its explanation |
| `CredentialStore`, `ModelRegistry`, `ModelService`, `ModelRuns` | model keys, runtime cache keyed by a revision, profile changes, all interleavings |
| `DatasourceRegistry`, `DatasourceService`, `DatasourceRuns` | datasource runtimes and their connectors, profile changes, all interleavings |
| `PoolRuns`, `Pool` | connection pool and its clients as a transition system, and the code that takes its steps |
| `Prompt`, `ContextSelection` | the prompt as a function of the selected fields, and the greedy selection |
| `Fusion`, `EmbeddingRanks` | reciprocal rank fusion, and the ranking by document similarity |
| `Authorization`, `AuthorizationLaws`, `InputOrder` | scopes, canonical snapshots, restriction of one by the other, and when input order matters |
| `Repair` | attempts, repairs, and their limits |
| `Encoding`, `Framing` | JSON text and its bytes, and the byte streams that are hashed |
| `Metrics` | ranked ids, counts by stage, their sums, percentiles |
| `Sorting`, `Orders`, `Ids`, `Texts`, `Wrappers` | stable sorting, tuple order, id sequences, text, options and results |

Names and identifiers are integers with their order (code points where the text itself matters), scores are
reals. What the code obtains from outside is a parameter or a nondeterministic choice: the outcome of opening a
connector, of a statement, of building a runtime, of a write to the profile store; the parse of a decimal or a
timestamp; the SQL fingerprint, which is an arbitrary function.

Concurrency is modelled twice over, on the same step functions. The transition systems (`ModelRuns`,
`DatasourceRuns`, `PoolRuns`) take one step for what happens under one lock, and their theorems hold for every
run. The classes (`ModelRuntimeRegistry`, `RuntimeRegistry`, `ConnectionPool`) hold the code of one thread, with
any number of steps of other threads between its own.

## What was found

- Model runtimes: a getter that read the old profile can join an old endpoint with the key that a replacement has
  just written. `ModelRuns.RepliesKeepKeysWithEndpoints` says exactly when. Once an identity is expected, only a getter
  that is overtaken between its two reads does so, and what it built is not served again
  (`ModelRuns.ExpectedRepliesKeepKeys`, `ModelRuns.KeysMayMeetAnOldEndpoint`). During the first change of a stored
  profile after a start nothing is expected yet: then the getter need not be overtaken, and the runtime is served
  again until the change invalidates (`ModelRuns.UnexpectedKeysMeetAnOldEndpoint`).
- Datasource runtimes: in the same way a new password can be used with the old host, user or scope
  (`DatasourceRuns.PasswordsMayMeetAnOldHost`), and `DatasourceRuns.RepliesKeepPasswordsWithConfigurations` says
  exactly when. A replacement that leaves the password out carries the stored one over to its configuration.
- Choice of tables: a candidate whose joining tables exceed the budget while a place is free is taken without them.
  Only then can selected tables that the graph connects end up without a join path (`TableSelection.MarkedExactly`,
  `TableSelection.SelectTableIds`).
- Connection pool: the bound on connections holds exactly when clients wait for `open()`, which puts a connection
  into the queue before it counts it. For pools of every size a client in between can break the bound
  (`PoolRuns.BoundNeedsOpen`).
- Connection pool: `close()` releases all connections exactly when no client has looked at the closed flag and has
  yet to put its connection back (`PoolRuns.EmptyForGood`). Otherwise that connection ends up in the
  queue of the closed pool (`PoolRuns.ClosedPoolKeepsAConnection`).
- Rank fusion: whether an id of both channels comes before an id of one depends on the ranks alone, up to ties
  (`Fusion.RanksDecide`). That it always does holds exactly up to `k + 1` distinct ids per channel
  (`Fusion.BoundIsExact`).
- A comparison under a tolerance is symmetric exactly without a relative part, and transitive exactly when both
  parts are zero; in every other case pairing rows first come, first served misses pairings, which is why the code
  searches (`ComparatorLaws.ToleranceLaws`).
- The comment of `normalize_metadata_scope` promises an error for an unqualified table. The code does not look at
  the tables when no schema is allowed, and the model follows the code: the documented errors are the ones raised
  exactly when some schema is allowed (`Authorization.ErrorsAreAsDocumented`).

## Model

| member | source | states |
|---|---|---|
| Matching.UnorderedRowsEqual | evaluation/comparator.py:185-257 | for any row relation, true exactly when the predicted rows can be paired one-to-one with equal gold rows; when false, some predicted rows have one fewer compatible gold rows than their number |
| Matching.ShortageRefutesPairing | evaluation/comparator.py:244-245 | predicted rows that are one gold row short rule out every pairing, so giving up at the first failed search is right |
| Comparator.FindDuplicateKey | evaluation/comparator.py:287-299 | finds a duplicate exactly when two rows at different places have equal keys |
| Comparator.KeyedRowsEqual | evaluation/comparator.py:279-324 | reports a duplicate key in either result first; otherwise matches exactly when each predicted row has one gold row with its key, equal and unshared, and none is left over |
| Comparator.CompareResults | evaluation/comparator.py:327-521 | the code returned is the verdict in terms of pairings, in the order of the checks: mode, truncation, columns, tolerances, grain, keys, rows; what the parts of the verdict mean is stated in the next rows without its functions |
| ComparatorLaws.ChecksAreExact | evaluation/comparator.py:336-458 | which check fails first, in terms of the columns and the tolerances given: mode, truncation, columns or a tolerance without one, a tolerance for a column that is not numeric, a float column without one among rows, numbers of rows |
| ComparatorLaws.LastToleranceWins | evaluation/comparator.py:404-422 | of tolerances under one normalized name the last counts |
| ComparatorLaws.StrictIsIdentity | evaluation/comparator.py:88-103 | strict equality is identity once all strings inside, but no names, have lost their trailing spaces |
| ComparatorLaws.ValuesTell | evaluation/comparator.py:106-154 | null equals only null; under a tolerance both must be numbers, or texts of such, and near; time stamps that can be read are equal as instants; all else is strict equality |
| ComparatorColumns.MatchingColumns | evaluation/comparator.py:352-398 | the columns match exactly when both results have distinct names and rows of their width, and each gold column has a predicted one of the same name and a matching type |
| ComparatorColumns.AlignedByName | evaluation/comparator.py:399-402 | an aligned row holds at each gold column the predicted value of the column with the same name |
| ComparatorColumns.RowsTell | evaluation/comparator.py:157-182 | a predicted row equals a gold row exactly when the values under each name are equal, under the tolerance of that name |
| ComparatorColumns.KeysTell | evaluation/comparator.py:260-276 | rows have the same key exactly when the values in every column named by a key are equal |
| ComparatorColumns.KeysAreValid | evaluation/comparator.py:488-503 | keys are valid exactly when there are some, of distinct names, each that of a gold column |
| ComparatorColumns.VerdictIgnoresColumnOrder | evaluation/comparator.py:327-521 | the verdict, of any mode and kind, does not change when the columns of either result, with the values of all rows, stand in another order |
| ComparatorLaws.MatchImpliesMultisetMatch | evaluation/comparator.py:460-507 | a match by exact, order-sensitive or keyed comparison is also a match as multisets |
| ComparatorLaws.MultisetVerdictIgnoresRowOrder | evaluation/comparator.py:474-487 | the multiset verdict, of any kind, does not change when the rows of either result are reordered |
| ComparatorLaws.PairsUpIsClassEquality | evaluation/comparator.py:185-257 | when row equality is symmetric and transitive, a pairing exists exactly when every class has equally many rows on both sides and every predicted row equals itself |
| ComparatorLaws.FirstComeIsEnough | evaluation/comparator.py:185-257 | giving each predicted row the first compatible gold row left finds every pairing exactly for relations in which rows with one compatible gold row in common have all in common; any other needs the search |
| ComparatorLaws.ValueEquivalence | evaluation/comparator.py:106-154 | under no or a zero tolerance value equality is symmetric and transitive, time stamps and nested values included; a value equals itself exactly unless a zero tolerance meets what is not a number |
| ComparatorLaws.MultisetWithZeroTolerances | evaluation/comparator.py:474-487 | with no tolerance other than zero, as it is by default, the multiset comparison is equality of multisets of row classes, in which every predicted row equals itself |
| ComparatorLaws.ToleranceLaws | evaluation/comparator.py:106-133 | for every tolerance: symmetric exactly without a relative part; transitive, and enough for pairing first come, first served, exactly when both parts are zero |
| GraphSearch.BuildGraph | app/schema_linking/graph_search.py:15-55 | fails exactly on a key with an unknown table; otherwise each table lists the steps of its keys in both directions, sorted |
| GraphSearch.ShortestPath | app/schema_linking/graph_search.py:58-94 | none exactly when no path inside the allowed tables joins the two; otherwise a simple path, least by length, tables and constraint names among all of them |
| GraphSearch.NewIsLeast | app/schema_linking/graph_search.py:58-104 | the first path found to a table is its least one, because steps are sorted and the queue is first in, first out |
| TableSelection.BestConnection | app/schema_linking/graph_search.py:139-155 | the least path from the candidate to any selected table, none exactly when it reaches none |
| TableSelection.SelectTableIds | app/schema_linking/graph_search.py:123-178 | for distinct ids that cover the graph, exactly min(top_k, count) ids, in ranked order; a candidate whose best connection fits the budget gets all its tables; unless some candidate overflows (its tables exceed the budget while a place is free), selected tables connected in the graph stay connected inside the selection |
| TableSelection.NextIsDecided | app/schema_linking/graph_search.py:131-170 | a candidate brings all tables of its best connection exactly when they fit into the budget with those before, comes alone when they do not but a place is free, and is left out otherwise |
| TableSelection.UnjoinedIsDecided | app/schema_linking/graph_search.py:131-170 | a candidate that nothing joins is taken exactly while a place is free |
| TableSelection.MarkedExactly | app/schema_linking/graph_search.py:162-167 | an overflow is recorded exactly when some candidate with a free place had a best connection that exceeds the budget |
| TableSelection.AnchoredKeeps | app/schema_linking/graph_search.py:151-170 | adding tables each joined inside the wider selection to an earlier one keeps all connections |
| TableSelection.JoinPaths | app/schema_linking/graph_search.py:181-196 | for each pair of selected tables in order, a shortest path inside the selection if there is one, and no other path |
| TableSelection.JoinedExactlyWhenConnected | app/schema_linking/graph_search.py:123-196 | when the selection keeps connections, a pair has a join path exactly when the whole graph connects it |
| Bridges.BuildNeighbors | app/schema_linking/rerank.py:350-373 | fails exactly on a key with an unauthorized table; otherwise neighbors are the tables joined by a key in either direction, in order |
| Bridges.Distances | app/schema_linking/rerank.py:87-104 | exactly the tables reachable around the blocked one, each with the length of a shortest such walk |
| Bridges.RequiredBridge | app/schema_linking/rerank.py:107-125 | true exactly when some pair not containing the candidate is connected and every walk between them passes through it |
| Bridges.BridgeOnShortestWalk | app/schema_linking/rerank.py:107-125 | a table that separates l from r lies on a shortest walk: d(l,c) + d(c,r) = d(l,r) |
| Rerank.FirstDifferenceShows | app/schema_linking/rerank.py:149-162 | the first differing component is found exactly when the keys differ, and all before it agree |
| Rerank.DifferenceOfChain | app/schema_linking/rerank.py:61-76 | of three keys in order, the component deciding between the outer two is the smaller of those deciding between neighbors |
| Rerank.EffectiveReasonCodes | app/schema_linking/rerank.py:128-185 | a table has exactly the reasons of the component that decides against the next one, and the penalty when it is disconnected and without evidence |
| Rerank.RelevantPathEdges | app/schema_linking/rerank.py:390-401 | the least length of a walk between two direct-evidence tables by way of the table, none exactly when there is no such walk |
| Rerank.JoinLengthPositive | app/schema_linking/models.py:151-193 | a computed join length is at least 1 |
| Rerank.EvidenceIsAccepted | app/schema_linking/models.py:151-193 | on valid input the evidence validator never rejects what the ranking assembles |
| Rerank.RerankSchemaCandidates | app/schema_linking/rerank.py:289-465 | fails exactly on repeated, unauthorized or undescribed candidates, descriptions of others, negative numbers, or keys outside the authorized tables; otherwise ranks exactly the candidates in strict key order, with their features, ranks and reasons |
| Rerank.FindRequiredBridges | app/schema_linking/rerank.py:217-286 | exactly the tables outside the direct evidence that separate some connected pair of it, in order |
| RerankLaws.DecidedByNeighbors | app/schema_linking/rerank.py:144-167 | for any two tables i before j the deciding component is the least of those between neighbors from i to j |
| RerankLaws.ReasonIsRecorded | app/schema_linking/rerank.py:128-185 | whenever i is ranked before j, the ground on which it wins is a recorded reason of some table from i up to, not including, j |
| RerankLaws.OrderTells | app/schema_linking/rerank.py:61-76 | one key is less than another exactly when the first ground on which the two tables are not even speaks for the first: required bridge, more direct fields, more aliases, join connection, shorter join path, grain keys, fusion score, smaller id; and that ground is the component that decides |
| RerankLaws.EarlierWins | app/schema_linking/rerank.py:434-436 | whoever is ranked earlier wins on one of these grounds, in this order |
| RerankLaws.ReasonsTell | app/schema_linking/rerank.py:128-185 | the recorded reasons of a table are exactly the ground on which it wins over the next one, and the penalty when it loses to the one before for its join connection, without fields, aliases or evidence of its own; in the order of the enumeration |
| RerankLaws.InputOrderIsIrrelevant | app/schema_linking/rerank.py:434-461 | reordering the candidates changes neither the ranking, nor features, nor reasons, apart from the recorded fusion rank |
| RerankLaws.BridgeIsJoinConnected | app/schema_linking/rerank.py:415-424 | every required bridge is join connected |
| CredentialStore.RunKeeps | app/local/credential_store.py:39-70 | over any run of the store a revision never goes back, and while it stands still so do the keys |
| CredentialStore.RevisionMoves | app/local/credential_store.py:39-102 | a change moves the revision of an id, by one, exactly when it writes or discards its keys, or clears keys it had |
| CredentialStore.ApplyTells | app/local/credential_store.py:39-102 | a change gives its id what it brings, clearing takes all secrets, and everything else stays; empty keys are not held |
| CredentialStore.InMemoryCredentialStore.PutModelKeys | app/local/credential_store.py:39-51 | bumps the revision and stores the keys, or removes them when both are missing |
| CredentialStore.InMemoryCredentialStore.DiscardModelKeys | app/local/credential_store.py:61-66 | bumps the revision and removes the keys |
| CredentialStore.InMemoryCredentialStore.PutDatasource | app/local/credential_store.py:72-81 | stores the password, or removes it when missing |
| CredentialStore.InMemoryCredentialStore.Clear | app/local/credential_store.py:95-102 | bumps the revision of each id that holds keys, visited in any order, and forgets all secrets |
| ModelRegistry.AnswerIsFresh | app/local/model_runtime_registry.py:35-68 | whatever happens to the store meanwhile: the settings are the requested ones, a hit has the keys of the moment the revision was taken, and an unmoved revision means the keys stored at the end |
| ModelRegistry.AfterwardsCoherent | app/local/model_runtime_registry.py:35-68 | a getter, with any changes of the store during it, leaves each cached runtime with the keys of its revision |
| ModelRegistry.ModelRuntimeRegistry.GetOrCreate | app/local/model_runtime_registry.py:35-68 | with changes of the store between its reads: a stale identity is refused and a runtime of the identity served, both without a change; otherwise the runtime is built with the keys read and cached, or its error reported and nothing cached |
| ModelRegistry.ModelRuntimeRegistry.Invalidate | app/local/model_runtime_registry.py:70-84 | sets or forgets the expected identity, with the revision read at the start, and drops the cached runtime |
| ModelRegistry.ModelRuntimeRegistry.CloseAll | app/local/model_runtime_registry.py:86-90 | forgets runtimes and expectations |
| ModelService.ModelProfileService.Create | app/local/model_service.py:55-80 | writes profile, keys and expectation together, with the exact error or none; no embedding key without an embedding URL |
| ModelService.ModelProfileService.Replace | app/local/model_service.py:91-151 | a given key is taken, and one left out is kept exactly while provider and URL, or embedding URL and model, stay the same; profile, keys and expectation are written together, or the exact error reported and none of them written |
| ModelService.ModelProfileService.Delete | app/local/model_service.py:153-159 | removes profile, keys and expectation together, with the exact error or none |
| ModelRuns.StepKeeps | app/local/model_service.py:55-159 | every step of writers, getters and clearing keeps the invariant that relates profiles, keys, cache and expectations |
| ModelRuns.RepliesAreCurrent | app/local/model_runtime_registry.py:35-68 | in every interleaving a reply has the requested settings; a hit has the keys stored when the revision was taken, and while the revision stands any reply has the keys stored now |
| ModelRuns.RepliesFollowProfile | app/local/model_runtime_registry.py:37-40 | once a change has invalidated, and until the next starts to write, only the stored settings are served |
| ModelRuns.RepliesKeepKeysWithEndpoints | app/local/model_runtime_registry.py:35-68 | for every reply: if its endpoints are those of the settings that its keys belong to (of the change that wrote them, of those before it, or the stored ones), each key is joined with the endpoint it was handed over for; exactly then, when no key was handed over for two endpoints |
| ModelRuns.ExpectedRepliesKeepKeys | app/local/model_runtime_registry.py:37-68 | once an identity is expected, a hit joins keys only with their endpoints, and a fresh runtime fails to only with keys that a change wrote during the getter |
| ModelRuns.KeysMayMeetAnOldEndpoint | app/local/model_service.py:91-151 | whenever a replacement brings a new key for another endpoint, there is a run in which a getter of the old profile, which is still the expected one, joins that key with the old endpoint |
| ModelRuns.UnexpectedKeysMeetAnOldEndpoint | app/local/model_runtime_registry.py:30-68 | for the first such replacement after a start there is a run in which a getter that starts after the write, for the profile read before it, does the same with the keys it sees, and the next one is served the same runtime |
| ModelRuns.StoredKeysFit | app/local/model_service.py:91-143 | between changes stored keys were handed over for the endpoints of the stored profile |
| ModelRuns.StoredKeyStays | app/local/model_service.py:91-159 | over any run a stored key stays until a change gives another, moves the endpoint that it unlocks, or deletes the profile, or the store is cleared |
| ModelRuns.RekeyedKeyGoes | app/local/model_service.py:104-138 | such a change leaves the given key, or none |
| ModelRuns.CachedUntilRemoved | app/local/model_runtime_registry.py:42-90 | a cached runtime leaves the cache at a step exactly when all are dropped, a change of its profile invalidates, or a getter asks for another identity |
| ModelRuns.CachedIsServed | app/local/model_runtime_registry.py:35-48 | after any run without such a step, a getter that took its identity is answered with that runtime at once |
| DatasourceRegistry.ConnectorFactory.BuildRuntime | app/local/datasource_runtime.py:156-222 | succeeds exactly when every stage does, and otherwise reports the failure of the first that does not; ends with one open connector, or with none, closed once on every failing path |
| DatasourceRegistry.IdentityTells | app/local/runtime_registry.py:124-133 | two configurations have one identity exactly when all fields agree, the host up to case and schemas and tables up to their order |
| DatasourceRegistry.CarriedAnswers | app/local/runtime_registry.py:34-83 | the step functions of the runs give exactly what the getter is specified to answer and to leave, case by case |
| DatasourceRegistry.BuiltOwned | app/local/runtime_registry.py:67-83 | after a build each connector still is closed once or owned by one cached runtime |
| DatasourceRegistry.CloseAllOwned | app/local/runtime_registry.py:102-108 | closing everything closes each cached connector once and none twice |
| DatasourceService.RuntimeRegistry.constructor | app/local/runtime_registry.py:22-32 | starts empty and owning nothing |
| DatasourceService.RuntimeRegistry.GetOrCreate | app/local/runtime_registry.py:34-83 | with password changes between its steps: refuses an unexpected identity without a change; without a password evicts and closes; serves a cached runtime of the identity, leaving cache and connectors alone; otherwise closes the old one, and caches the new one or reports the failure of the first stage that failed; the whole cache and all connectors afterwards |
| DatasourceService.RuntimeRegistry.Settle | app/local/runtime_registry.py:67-83 | a runtime for another profile is closed and refused, any other is cached |
| DatasourceService.RuntimeRegistry.Invalidate | app/local/runtime_registry.py:85-100 | sets or forgets the expected identity and closes the cached runtime |
| DatasourceService.RuntimeRegistry.CloseEverything | app/local/runtime_registry.py:102-108 | empties the cache and closes what was in it, each connector once |
| DatasourceService.DatasourceProfileService.Create | app/local/datasource_service.py:60-77 | profile and password are written together after validation, without an invalidation; the exact error otherwise, and everything as it was |
| DatasourceService.DatasourceProfileService.Replace | app/local/datasource_service.py:102-171 | a password is missing only for another configuration; the given or else the stored password is kept; the runtime is dropped and the new identity expected exactly when configuration or password was given anew; the exact error otherwise, and everything as it was |
| DatasourceService.DatasourceProfileService.Delete | app/local/datasource_service.py:173-180 | removes profile and password and closes the runtime, or reports the exact error and changes nothing |
| DatasourceRuns.StepKeeps | app/local/datasource_service.py:60-180 | every step of writers, getters and clearing keeps the invariant that relates profiles, passwords, cache, connectors and expectations |
| DatasourceRuns.StalePasswordMeansUnsettled | app/local/datasource_service.py:131-169 | a cached password that differs from a stored one means a replace is between its password write and its invalidation |
| DatasourceRuns.ConnectorsAccountedFor | app/local/runtime_registry.py:34-122 | at every step of every run each connector ever created is closed exactly once, or open and owned by the runtime of exactly one id, or open and in the hand of the getter that builds |
| DatasourceRuns.CachedUntilRemoved | app/local/runtime_registry.py:34-108 | a cached runtime leaves the cache at a step, and is closed, exactly when all are closed, a change of its profile invalidates, or a getter without a password or with another identity comes that is not refused |
| DatasourceRuns.CachedIsServed | app/local/runtime_registry.py:58-64 | after any run without such a step a getter of the same target, with a password stored and nothing else expected, is answered with that runtime at once, and no connector is created or closed |
| DatasourceRuns.StoredPasswordStays | app/local/datasource_service.py:102-180 | over any run a stored password stays until a change deletes the profile or gives a password or none, or the store is cleared |
| DatasourceRuns.RepliesMatch | app/local/runtime_registry.py:34-83 | a runtime handed out matches the requested identity, is open and cached, and has the stored password unless a change is under way |
| DatasourceRuns.RepliesFollowProfile | app/local/datasource_service.py:131-180 | with no change under way only a stored profile gets a runtime, and after an announced change only with the stored configuration |
| DatasourceRuns.RepliesKeepPasswordsWithConfigurations | app/local/runtime_registry.py:34-83 | for every reply: if the identity asked for is the one its password belongs to (of the change that wrote it, of the profile before it, or the stored one), a change has accepted the two together; exactly then, when no password was accepted with two identities |
| DatasourceRuns.PasswordsMayMeetAnOldHost | app/local/datasource_service.py:102-171 | whenever a replacement brings a new password for another identity, there is a run in which a getter that read the old profile uses it with the old one |
| PoolRuns.StepKeeps | app/connectors/mysql.py:445-504 | every step of opener and clients keeps counter, places of connections and cleanliness |
| PoolRuns.CounterIsExact | app/connectors/mysql.py:454-494 | in every run after open() the counter is the connections in the queue and in hands, between 0 and the pool's size |
| PoolRuns.HolderIsCounted | app/connectors/mysql.py:477-490 | whoever holds a connection finds room in the queue, and a count above 0: neither the full branch nor the clamp is reached |
| PoolRuns.IdleIsClean | app/connectors/mysql.py:315-417 | no connection in the queue, or about to be put there, has an open transaction |
| PoolRuns.EveryConnectionHasOnePlace | app/connectors/mysql.py:454-504 | every connection made is in the queue once, in one client's hands, or discarded once, and nowhere else |
| PoolRuns.BoundNeedsOpen | app/connectors/mysql.py:445-485 | for pools of every size: the counter keeps to the bound in all runs exactly when clients wait for open(), and so does the room that a holder finds in the queue |
| PoolRuns.EmptyForGood | app/connectors/mysql.py:477-504 | a queue that close() found empty stays empty in all runs exactly when no client is between its look at the closed flag and its put |
| PoolRuns.ClosedPoolKeepsAConnection | app/connectors/mysql.py:477-504 | for pools of every size: a run that ends with the pool closed, everybody at rest, and one connection in the queue |
| Pool.ConnectionPool.constructor | app/connectors/mysql.py:426-443 | a new pool is the start of a run |
| Pool.ConnectionPool.Open | app/connectors/mysql.py:445-452 | fills the queue with min connections and counts them; at the first failure it stops, and exactly those created before it stay, counted |
| Pool.ConnectionPool.Connection | app/connectors/mysql.py:454-475 | with any steps of others in between, and in terms of the state just before: the first connection of the queue, or a new one counted while there is room; none only from a closed pool, when creating fails, or when the queue is empty once more |
| Pool.ConnectionPool.PutBack | app/connectors/mysql.py:477-485 | puts the connection at the end of the queue, always finding room, unless it sees the pool closed, and then discards it |
| Pool.ConnectionPool.Discard | app/connectors/mysql.py:487-494 | gives up exactly one count, and the connection is dropped |
| Pool.ConnectionPool.Close | app/connectors/mysql.py:496-504 | with any steps of others in between: ends with the pool closed and the queue empty, and it stays empty exactly when nobody is about to put a connection back |
| Pool.ConnectionPool.RollbackOrDiscard | app/connectors/mysql.py:516-525 | reusable exactly when rollback works; otherwise the connection is discarded |
| Pool.ConnectionPool.ExecuteOnce | app/connectors/mysql.py:315-417 | with any steps of others in between: succeeds exactly when a connection is obtained and start, timeout, all statements and commit work; then, or after a rollback that works, the connection is last in the queue, or dropped by a closed pool; otherwise it is dropped |
| Pool.ConnectionPool.ReadOnlySnapshot | app/connectors/mysql.py:185-236 | the same for a snapshot, whose end rolls back: succeeds exactly when start, timeout, body and rollback work |
| Prompt.ValidateContext | app/generation/prompt.py:76-202 | accepts exactly contexts whose tables, fields, selection and join paths agree with each other and the snapshot |
| Prompt.FieldsAreShown | app/generation/prompt.py:278-298 | the prompt lists the selected fields in the order of the selection, each with the description that its candidate field carries |
| Prompt.KeysAreShown | app/generation/prompt.py:299-354 | each key is shown, at its place and once, exactly when all its tables are candidates and all its columns are selected |
| Prompt.PathsAreShown | app/generation/prompt.py:355-383 | each join path is shown, at its place and once, exactly when all its columns are selected |
| Prompt.PayloadHolds | app/generation/prompt.py:257-401 | what the prompt holds under each of its thirteen names |
| Prompt.TokensTell | app/generation/context.py:52-68 | the estimate is the number of bytes of both messages, three to a token, rounded up |
| Prompt.FieldsGrow | app/generation/prompt.py:278-298 | distinct fields among more distinct fields never take more bytes |
| Prompt.EstimateGrows | app/generation/prompt.py:222-401 | the estimate is monotone in the selected set, although keys and join paths appear with their columns |
| ContextSelection.JoinIds | app/generation/context.py:118-130 | the candidate join columns that are not direct, each where it first occurs along the paths |
| ContextSelection.FieldOrderTells | app/generation/context.py:71-81 | fields are ordered by higher score, then the rank of their table, then id |
| ContextSelection.EvidenceOrderTells | app/generation/context.py:141-176 | similar fields are ordered by fusion rank, none last, then embedding rank, then the rank of their table, then id, by the last evidence that counts for each |
| ContextSelection.RequiredTells | app/generation/context.py:84-183 | a candidate is required exactly when it is matched or scored, on a join path, or has ranked evidence of a positive similarity |
| ContextSelection.OrderedFieldIds | app/generation/context.py:84-195 | required and optional ids are the candidates, each once; required are exactly the matched, join, positive and similar ones, each group in its order |
| ContextSelection.SelectGenerationContext | app/generation/context.py:212-272 | fails exactly on bad limits, a bad context, or required fields that with the output exceed four fifths of the input limit; otherwise all required fields in the order of their groups, then each optional field in its order that still fits, a selection within that limit that no further field extends, with true counts |
| ContextSelection.SelectedIfItFits | app/generation/context.py:251-260 | an optional field is selected exactly when it fits together with the required fields and the optional ones selected before it |
| ContextSelection.RejectionsMakeMaximal | app/generation/context.py:251-260 | one greedy pass is enough: no set of further fields fits any more |
| ContextSelection.CandidatePathsAreShown | app/generation/prompt.py:355-383 | a join path whose columns are all candidates is in the final prompt |
| Fusion.ReciprocalRankFusion | app/schema_linking/fusion.py:390-458 | fails exactly on invalid input; otherwise each id once, its contributions at its place after duplicates are removed, their sum, and the order by score and id |
| Fusion.CandidatesTell | app/schema_linking/fusion.py:425-449 | a candidate has one contribution for each channel with its id, BM25 first, the reciprocal of k plus its place there, and their sum as its score |
| Fusion.DominatingComesFirst | app/schema_linking/fusion.py:438-458 | an id that ranks at least as well in each channel never scores lower, and comes later only on a tie |
| Fusion.RanksDecide | app/schema_linking/fusion.py:425-458 | an id of both channels at ranks p and q comes before one of one channel at rank s exactly when (k+s)(2k+p+q) > (k+p)(k+q), or both are equal and its id is smaller |
| Fusion.BothChannelsComeFirst | app/schema_linking/fusion.py:425-458 | with at most k + 1 distinct ids per channel, ids of both channels score higher than ids of one and come before them |
| Fusion.BoundIsExact | app/schema_linking/fusion.py:425-458 | that holds for all rankings with at most n distinct ids per channel exactly when n is at most k + 1 |
| EmbeddingRanks.RankEmbeddingIndex | app/schema_linking/fusion.py:220-387 | fails exactly on a bad limit, another schema version, documents other than the snapshot's, a query or document vector that cannot be scaled, or a snapshot whose documents share an id or name an unknown table; otherwise ranks tables by their best document and fields by their own |
| EmbeddingRanks.JudgeTells | app/schema_linking/fusion.py:220-238 | a document counts exactly when its vector has the dimension and a length; its similarity, times both lengths, is the sum of the products of the components |
| EmbeddingRanks.DocumentsTell | app/schema_linking/index.py:147-271 | the documents are those of the tables, of their fields, and of the first primary and foreign keys of each id |
| EmbeddingRanks.BuiltAreChecked | app/schema_linking/index.py:147-279 | for the documents built from a snapshot the checks of the ranking come down to scalable vectors, distinct ids and known tables: kinds, parents and completeness always hold |
| EmbeddingRanks.BestNext | app/schema_linking/fusion.py:327-339 | the fold keeps the most similar document of a table, the smaller id on a tie |
| EmbeddingRanks.TopIsTop | app/schema_linking/fusion.py:344-362 | the list holds the best positive scores; whatever is left out comes after a full list |
| Authorization.ParseRoundTrip | app/connectors/metadata.py:153-160 | a qualified name is read back as its schema and table, further dots staying in the table |
| Authorization.ParseTells | app/connectors/metadata.py:153-160 | what parses is a schema without dots, a dot and a table, both not blank; a name without a dot is unqualified, and anything else has an empty part |
| Authorization.NormalizeMetadataScope | app/connectors/metadata.py:133-167 | fails exactly on a blank schema or, with some schema allowed, on a table that does not parse, with the error of the first; otherwise the distinct schemas and the distinct allowed pairs inside them, sorted |
| Authorization.ErrorsAreAsDocumented | app/connectors/metadata.py:133-149 | the documented errors are the ones raised, whatever the tables, exactly when some schema is allowed |
| Authorization.AuthorizeSchemaSnapshot | app/schema_linking/authorization.py:8-95 | fails exactly for a scope that does not normalize; otherwise restricts the snapshot to the pairs of the scope |
| AuthorizationLaws.AuthorizeComposes | app/schema_linking/authorization.py:8-95 | one scope after another is once by the pairs they share |
| AuthorizationLaws.SnapshotIsCanonical | app/connectors/metadata.py:170-277 | building again from what was built changes nothing |
| AuthorizationLaws.SnapshotTables | app/connectors/metadata.py:183-196 | a snapshot holds the tables given, by schema and name, each with its columns by position |
| AuthorizationLaws.SnapshotKeys | app/connectors/metadata.py:197-239 | and the keys, constraints and indexes given, each list by schema, table and name, foreign keys also by target |
| AuthorizationLaws.SnapshotSchemas | app/connectors/metadata.py:240-242 | and the schemas of its tables, each once, in order |
| AuthorizationLaws.KeptTables | app/schema_linking/authorization.py:23-28 | the tables in scope, as often as they were there, each with all its columns, and no others |
| AuthorizationLaws.KeptKeysAreVisible | app/schema_linking/authorization.py:35-56 | a primary key, unique constraint or unique index is kept, as often as it was there, exactly when its table is in scope and all its columns are visible, and then they are columns of a kept table |
| AuthorizationLaws.KeptForeignKeysAreVisible | app/schema_linking/authorization.py:57-70 | the same for foreign keys, on both sides |
| AuthorizationLaws.ColumnsOfSorted | app/connectors/metadata.py:193-196 | sorting is stable, so with repeated tables the same one decides which columns are visible |
| InputOrder.OrderIsIrrelevantExactly | app/connectors/metadata.py:183-239 | the order in which entries and columns arrive does not matter exactly when no two different kept entries of a list share a sort key, nor two different columns of a kept table their position |
| InputOrder.ListOrderMatters | app/connectors/metadata.py:197-239 | the order of one list matters exactly when two different kept entries share a sort key |
| Repair.StepKeeps | app/reflection/service.py:51-162 | no step makes a history or registration that the constructors would reject |
| Repair.HistoryOfEveryRun | app/reflection/models.py:104-135 | in every run at most four attempts, distinct fingerprints, and all but the last ended in a repairable error |
| Repair.NothingAfterSuccess | app/reflection/service.py:51-162 | after success every further action is refused |
| Repair.RegistrationOutcome | app/reflection/service.py:125-162 | a repair is a duplicate exactly when its fingerprint was used, checked before exhaustion; exhausted exactly after four attempts |
| Repair.ValidationTells | app/reflection/service.py:51-96 | a validation is recorded exactly when there is none and it agrees with itself and, if positive, with the SQL of the attempt; nothing else changes |
| Repair.ExecutionTells | app/reflection/service.py:99-122 | an outcome is recorded exactly when there is none and the attempt was found valid; nothing else changes |
| Repair.RegistrationTells | app/reflection/service.py:125-162 | a repair is considered exactly after a syntax, schema or dialect error; an accepted one becomes the next attempt |
| Repair.StepUsesUp | app/reflection/service.py:51-162 | each action carried out lowers the count of repairs and outcomes left; any other changes nothing |
| Repair.RunsComeToAnEnd | app/reflection/service.py:38-162 | however long a run, at most eleven actions are carried out |
| Repair.DecisionMatchesRegistration | app/reflection/service.py:165-248 | a repair is decided on exactly when a new SQL text would be accepted |
| Repair.DecisionTells | app/reflection/service.py:165-248 | which strategy and route each error gets, and when |
| Encoding.ValuesTell | app/schema_linking/models.py:76-84 | a JSON text that a separator may follow is read as one value only, and ends in one place only |
| Encoding.TextsAreTold | app/schema_linking/models.py:76-84 | no two texts share their UTF-8 bytes |
| Encoding.PayloadsAreTold | evaluation/code_freeze.py:171-185 | no two payloads, with integers, floats and nested values, share their encoded JSON text |
| Framing.NumberRoundTrip | evaluation/code_freeze.py:153-164 | a length written big-endian is read back |
| Framing.CodeLimits | evaluation/code_freeze.py:153-164 | lengths of the code tree are below 2^32 in four bytes and 2^64 in eight |
| Framing.FirstByteCountsMost | evaluation/code_freeze.py:153-164 | the first byte of a length counts most |
| Framing.EntriesTell | evaluation/code_freeze.py:156-166 | in the stream each entry has its place, name and content each behind its length |
| Framing.TreeRoundTrip | evaluation/code_freeze.py:149-168 | domain, names and contents can be read back from the stream |
| Framing.ReadTreeIsExact | evaluation/code_freeze.py:149-168 | no other byte sequence reads as the same tree |
| Framing.TreesAreTold | evaluation/code_freeze.py:149-168 | different trees never share a stream, whatever the widths of the lengths |
| Framing.ControlledCodeIsTold | evaluation/code_freeze.py:149-168 | the same for the widths that the code tree uses |
| Framing.BaselinesAreTold | evaluation/code_freeze.py:171-192 | different baseline domains or payloads, as JSON values, never share a stream |
| Framing.DomainsAreTold | evaluation/code_freeze.py:152-192 | a code tree and a baseline of different domains never share a stream |
| Framing.FeedTree | evaluation/code_freeze.py:149-168 | the digest is fed exactly the stream, or a length does not fit |
| Framing.FramesRoundTrip | app/schema_linking/models.py:85-87 | components written with their lengths, and no count, can be read back |
| Framing.VersionsAreTold | app/schema_linking/models.py:68-88 | retrieval versions with different settings never share a stream |
| Metrics.OrderedRetrievalIds | evaluation/runner.py:120-151 | succeeds exactly when the ranks are 1 to n, each once, over distinct ids; then lists the ids by rank |
| Metrics.RankedPairsTell | evaluation/runner.py:125-139 | the ranked items give their pairs, each at its place |
| Metrics.StageCounts | evaluation/runner.py:154-172 | counts, at each cutoff, the ids ranked by then and the expected ones found among them, and passes validation exactly when something is expected and the stage exists |
| Metrics.StageCountsAreValid | evaluation/models.py:536-564 | the counts of any ranking pass the validator exactly when something is expected and the stage exists |
| Metrics.BucketsAreValid | evaluation/report.py:290-348 | sums of valid counts pass the bucket validator |
| Metrics.BucketsAdd | evaluation/report.py:672-690 | a bucket counts each of its cases once: counts add up over groups of cases |
| Metrics.BucketTells | evaluation/report.py:690-708 | recall is over the expected ids, precision over the candidates, the mean over the cases, each 0 over none |
| Metrics.RecallGrows | evaluation/report.py:664-708 | recall never falls from one cutoff to the next |
| Metrics.PercentileIsInRange | evaluation/report.py:563-578 | an interpolated percentile lies within the range of its sample |
| Metrics.PercentilesRise | evaluation/report.py:563-578 | a higher percentile is never smaller, so the 50th never exceeds the 95th |
| Metrics.PercentileTells | evaluation/report.py:563-578 | the percentile p of n values is the sorted value at (n - 1) p, or between two of them their weighted mean |

## Left out

- Distances from several tables at once (`_distances_from_tables`): the same search as `Bridges.Distances` with several starts.
- Infinite and undefined floats, the 28-digit rounding of decimals, and float rounding in scores, similarities and percentiles.
- The parse of decimals, timestamps and column names: parameters of the comparison.
- `fallback_rerank_outcome`, the primary and fallback routing, and the field checks of the data classes that one branch settles.
- Aliasing of runtimes and connectors: a runtime is a value with the number of its connector, and closing is recorded on that number.
- The order in which `close_all` closes runtimes: the model closes them in any order.
- Stale readers of a deleted profile, and the time between `close_all` and `clear_all`: replies are claimed only under the stated conditions.
- Temporary connectors of `test_connection` and `validate_profile`: validation is a parameter of the profile changes.
- Interrupts other than ordinary exceptions during a rollback, and real time: a wait ends in any way that the queue allows.
- Retries of `execute` and `read_metadata`, the statements on a snapshot connection beyond their success, and the session timeout value.
- `Pool.ConnectionPool.Close`: how many counts are given up, which the steps of others between its own leave open.
- The identity of names with dots in them: fields are numbered, and their tables given.
- The digest itself, `schema_version`, and the walk over the controlled code tree.
- BM25, and the Euclidean length, which is an arbitrary function. Documents have numbers for their texts, the snapshot has its entries in the order in which documents are built, and whether the schema versions agree is given.
- The digits of floats in JSON payloads: a float comes as its text. Tuples and lists share a text; dictionaries come with their members in the order of their names.
- SQL parsing, fingerprint internals, alias rewriting, view extraction, the workflow, the linker and the index.
- PostgreSQL and StarRocks connectors, HTTP, launcher and frontend.
