# Fabric client hooks, lazy table metadata and the flatten-index counter

A Dafny model of three small, stateful pieces of Dremio's execution engine:

- **`PartialTableMetadata`** (module `Catalog`, `partial_table_metadata.dfy`): a table whose full
  metadata (`TableMetadataImpl`) is materialised on first use. The class keeps the source's two
  mutable fields, `datasetConfig` and `datasetPointer` (absent = not yet loaded). `LoadIfNecessary`
  is proved against the pure function `Load`, which describes the state after one load attempt:
  already loaded → nothing happens; a read definition present → the splits pointer is a pointer to
  the current configuration; otherwise the dataset and its splits are fetched from the source definition, the new
  configuration takes the old id and tag, is stored in the namespace under the old name, and
  replaces the current configuration. Every failure is wrapped in a `RuntimeException` and leaves
  the table unloaded. A failure while fetching or storing leaves everything as it was; a null
  splits list from the source fails only afterwards, when its size is taken, so the namespace
  entry (with a null list) and the replaced configuration remain. The namespace is a class holding a map from name to (configuration,
  splits); the source definition is a fixed pair of answers that may each be an exception;
  `TableMetadataImpl` is an opaque record of (plugin, configuration, user, splits pointer).
- **`SqlValidatorImpl.FlattenOpCounter`** (module `SqlValidation`, `sql_validator.dfy`): a counter
  whose `nextFlattenIndex` is `value++` on a Java `int`. A ghost history of the indices handed out
  is tied to the counter's value, and lemmas about the sequence of draws prove that a fresh counter
  returns 0, 1, 2, … (strictly increasing below 2^31 calls, pairwise distinct below 2^32 calls,
  wrapping to `INT_MIN` after `INT_MAX`). Validators share a counter by reference.
- **`FabricClient`** (module `Fabric`, `fabric_client.dfy`): the hooks the fabric client adds to
  the generic RPC client: exact-match version check on the peer's handshake, finalising a
  connection with the peer's identity, creating and remembering the connection for a new
  channel, close-handler composition, and the two dispatch overloads.

Shared pieces: `wrappers.dfy` (Option/Result/Outcome for nulls and exceptions), `java_int.dfy`
(the `int` range and two's-complement wrap-around), `decimal.dfy` (the `%d` conversion used in
the handshake rejection message, with its inverse).

A version mismatch is meant to be reported with the expected and the actual version; the code
prints them under each other's labels, which the model keeps and logs under Findings. The object
is mutated in place on first access, which the class models; `Load` is the two-state
(unloaded/loaded) view of one load attempt.

`FabricRpcConfig` is not part of this model: `RPC_VERSION` is taken to be 1. Only the concrete
message in `Fabric.RejectionOfVersionTwo` depends on that value.

## Model

| member | source | states |
|---|---|---|
| `SqlValidation.FlattenOpCounter.constructor` | sabot/kernel/src/main/java/com/dremio/exec/planner/sql/SqlValidatorImpl.java:42-44 | a fresh counter holds 0 (Java default initialisation) and has issued nothing |
| `SqlValidation.FlattenOpCounter.NextFlattenIndex` | sabot/kernel/src/main/java/com/dremio/exec/planner/sql/SqlValidatorImpl.java:45-47 | returns the stored value, stores its `int` successor, appends the returned index to the history, and keeps the history equal to the draws from 0 |
| `SqlValidation.SqlValidatorImpl.constructor` | sabot/kernel/src/main/java/com/dremio/exec/planner/sql/SqlValidatorImpl.java:28-36 | the validator keeps the very counter object it is given |
| `SqlValidation.SqlValidatorImpl.NextFlattenIndex` | sabot/kernel/src/main/java/com/dremio/exec/planner/sql/SqlValidatorImpl.java:38-40 | returns exactly the shared counter's next value and advances that counter, so validators on one counter draw from one history |
| `JavaInt.Increment` | sabot/kernel/src/main/java/com/dremio/exec/planner/sql/SqlValidatorImpl.java:46 | `v + 1` on an `int`: one more below `INT_MAX`, `INT_MIN` after it, always the wrapped exact sum |
| `SqlValidation.Draws` | sabot/kernel/src/main/java/com/dremio/exec/planner/sql/SqlValidatorImpl.java:45-47 | the indices n successive calls return: exactly n of them, the first being the start value |
| `SqlValidation.DrawsAt` | sabot/kernel/src/main/java/com/dremio/exec/planner/sql/SqlValidatorImpl.java:45-47 | the i-th index drawn is the start plus i, wrapped to an `int` |
| `SqlValidation.FirstDrawsAreNaturals` | sabot/kernel/src/main/java/com/dremio/exec/planner/sql/SqlValidatorImpl.java:43-47 | up to 2^31 calls on a fresh counter return 0, 1, …, n-1 in order |
| `SqlValidation.DrawsStrictlyIncreasing` | sabot/kernel/src/main/java/com/dremio/exec/planner/sql/SqlValidatorImpl.java:45-47 | within 2^31 calls the indices strictly increase |
| `SqlValidation.DrawsDistinct` | sabot/kernel/src/main/java/com/dremio/exec/planner/sql/SqlValidatorImpl.java:45-47 | within 2^32 calls no index is handed out twice |
| `SqlValidation.DrawsWrapAfterIntMax` | sabot/kernel/src/main/java/com/dremio/exec/planner/sql/SqlValidatorImpl.java:45-47 | the call after the one returning `INT_MAX` returns `INT_MIN` |
| `SqlValidation.DrawsRepeatAfterModulus` | sabot/kernel/src/main/java/com/dremio/exec/planner/sql/SqlValidatorImpl.java:45-47 | call number 2^32 + 1 returns 0 again, so distinctness ends there |
| `Fabric.ValidateHandshake` | services/fabric-rpc/src/main/java/com/dremio/services/fabric/FabricClient.java:115-119 | the handshake is rejected with an RpcException if and only if the peer's version differs from `RPC_VERSION` |
| `Fabric.MismatchMessageDeterminesVersions` | services/fabric-rpc/src/main/java/com/dremio/services/fabric/FabricClient.java:117 | the mismatch message names both versions unambiguously: equal messages have equal "Expected" and equal "actual" versions |
| `Fabric.RejectionLabelsSwapped` | services/fabric-rpc/src/main/java/com/dremio/services/fabric/FabricClient.java:117 | in a rejection, the version printed after "Expected" is the peer's and the one after "actual" is `RPC_VERSION`, so "Expected" never shows the version the client expects |
| `Fabric.RejectionOfVersionTwo` | services/fabric-rpc/src/main/java/com/dremio/services/fabric/FabricClient.java:116-117 | a peer at version 2 is told "Invalid rpc version.  Expected 2, actual 1." |
| `Fabric.ValidateHandshakeCorrected` | services/fabric-rpc/src/main/java/com/dremio/services/fabric/FabricClient.java:115-119 | the same exact-match check, with the message's arguments in label order |
| `Fabric.CorrectedRejectionLabels` | services/fabric-rpc/src/main/java/com/dremio/services/fabric/FabricClient.java:117 | in the corrected rejection "Expected" names `RPC_VERSION` and "actual" the peer's version |
| `Fabric.FabricClient.constructor` | services/fabric-rpc/src/main/java/com/dremio/services/fabric/FabricClient.java:53-73 | the identities, handler, close-handler factory and allocator are fixed at construction; no connection yet |
| `Fabric.FabricClient.InitRemoteConnection` | services/fabric-rpc/src/main/java/com/dremio/services/fabric/FabricClient.java:81-90 | a new connection named "fabric client" on the given channel, this bus and the client's allocator is stored in the `connection` field, replacing the previous one, and that same object is returned |
| `Fabric.FabricClient.GetCloseHandler` | services/fabric-rpc/src/main/java/com/dremio/services/fabric/FabricClient.java:92-95 | the close handler is the factory's handler for this connection wrapped around the base client's handler, which is passed in, not replaced |
| `Fabric.FabricClient.GetResponseDefaultInstance` | services/fabric-rpc/src/main/java/com/dremio/services/fabric/FabricClient.java:97-100 | every rpc type gets the FabricMessage default instance, never an exception |
| `Fabric.ResponsePrototypeIgnoresType` | services/fabric-rpc/src/main/java/com/dremio/services/fabric/FabricClient.java:97-100 | the response prototype is the same for any two rpc types |
| `Fabric.FabricClient.Handle` | services/fabric-rpc/src/main/java/com/dremio/services/fabric/FabricClient.java:103-107 | an inbound request reaches the application handler with the fixed remote and local identities and the call's own connection, type, bodies and sender |
| `Fabric.FabricClient.HandleForResponse` | services/fabric-rpc/src/main/java/com/dremio/services/fabric/FabricClient.java:109-112 | the response-returning dispatch always throws UnsupportedOperationException |
| `Fabric.FabricClient.FinalizeConnection` | services/fabric-rpc/src/main/java/com/dremio/services/fabric/FabricClient.java:121-124 | the connection's identity becomes the handshake's identity; nothing else is modified |
| `Catalog.Create` | sabot/kernel/src/main/java/com/dremio/exec/catalog/PartialTableMetadata.java:52-58 | construction throws NullPointerException exactly when the source definition, configuration or plugin is null; user and namespace may be null; a new table starts unloaded |
| `Catalog.PartialTableMetadata.constructor` | sabot/kernel/src/main/java/com/dremio/exec/catalog/PartialTableMetadata.java:52-58 | the fields hold the given values and the pointer is absent (unloaded) |
| `Catalog.Load` | sabot/kernel/src/main/java/com/dremio/exec/catalog/PartialTableMetadata.java:60-82 | once loaded nothing changes; success iff the table ends loaded; a failure is a RuntimeException and leaves the table unloaded; a failure before the configuration swap changes nothing, while a null splits list fails with a wrapped NullPointerException after the namespace write and the swap, which both remain; with a read definition the configuration and namespace stay and the splits pointer is a pointer to the current configuration; without one, success iff fetching the configuration and a non-null splits list and storing all succeed, and then the fetched configuration with the old id and tag is stored under the old name with the fetched splits, becomes current, and the pointer holds those splits with their count |
| `Catalog.CarryOver` | sabot/kernel/src/main/java/com/dremio/exec/catalog/PartialTableMetadata.java:70-72 | the fetched configuration keeps everything of its own except the id and tag, which come from the configuration it replaces |
| `Catalog.LoadIdempotent` | sabot/kernel/src/main/java/com/dremio/exec/catalog/PartialTableMetadata.java:60-63 | loading again after a successful load succeeds and changes nothing |
| `Catalog.LoadIgnoresSourceWithReadDefinition` | sabot/kernel/src/main/java/com/dremio/exec/catalog/PartialTableMetadata.java:60-67 | a loaded table, or one with a read definition, loads the same whatever the source definition answers and whether or not the namespace accepts writes |
| `Catalog.PartialTableMetadata.LoadIfNecessary` | sabot/kernel/src/main/java/com/dremio/exec/catalog/PartialTableMetadata.java:60-82 | the outcome and the new fields and namespace contents are exactly those `Load` gives for the old state; the pointer keeps describing the current configuration |
| `Catalog.PartialTableMetadata.GetName` | sabot/kernel/src/main/java/com/dremio/exec/catalog/PartialTableMetadata.java:84-87 | the name is the current configuration's full path; reads only, never loads |
| `Catalog.PartialTableMetadata.GetStoragePluginId` | sabot/kernel/src/main/java/com/dremio/exec/catalog/PartialTableMetadata.java:95-98 | the plugin given at construction; never loads |
| `Catalog.PartialTableMetadata.GetUser` | sabot/kernel/src/main/java/com/dremio/exec/catalog/PartialTableMetadata.java:100-103 | the user given at construction, possibly absent; never loads |
| `Catalog.PartialTableMetadata.GetReadDefinition` | sabot/kernel/src/main/java/com/dremio/exec/catalog/PartialTableMetadata.java:160-163 | the current configuration's read definition; reads only, never loads |
| `Catalog.PartialTableMetadata.GetType` | sabot/kernel/src/main/java/com/dremio/exec/catalog/PartialTableMetadata.java:165-168 | the current configuration's type; reads only, never loads |
| `Catalog.PartialTableMetadata.GetDatasetConfig` | sabot/kernel/src/main/java/com/dremio/exec/catalog/PartialTableMetadata.java:204-207 | the current configuration (the replaced one once a load without read definition succeeded); never loads |
| `Catalog.PartialTableMetadata.Forward` | sabot/kernel/src/main/java/com/dremio/exec/catalog/PartialTableMetadata.java:89-186 | every loading accessor (version, digest, splits key, splits, split ratio, the three prunes, split count, schema, record count, isPruned) loads first, throws the load's exception if it fails, and otherwise is answered by the materialised pointer |
| `Catalog.PartialTableMetadata.GetFormatSettings` | sabot/kernel/src/main/java/com/dremio/exec/catalog/PartialTableMetadata.java:154-158 | loads, then reads the format settings from the configuration current after loading; NullPointerException when it has no physical dataset |
| `Catalog.PartialTableMetadata.Equals` | sabot/kernel/src/main/java/com/dremio/exec/catalog/PartialTableMetadata.java:188-196 | loads the receiver only (its failure propagates); false for anything that is not a table; otherwise compares the receiver's pointer with the other table's pointer as it stands, absent if that table is unloaded, and leaves the other table's pointer alone |
| `Catalog.PartialTableMetadata.HashCode` | sabot/kernel/src/main/java/com/dremio/exec/catalog/PartialTableMetadata.java:198-202 | loads, then returns 31 plus the pointer's hash in `int` arithmetic |

## Findings

| source | as written | input that shows it | evidently intended | confidence | as-written member | corrected member |
|---|---|---|---|---|---|---|
| services/fabric-rpc/src/main/java/com/dremio/services/fabric/FabricClient.java:117 | the peer's version fills "Expected %d" and `RPC_VERSION` fills "actual %d" | a peer handshake with version 2 against `RPC_VERSION` 1 gives "Invalid rpc version.  Expected 2, actual 1." | "Expected" names the client's own `RPC_VERSION`, "actual" the peer's version | high; not executed | `Fabric.RejectionLabelsSwapped` | `Fabric.CorrectedRejectionLabels` |

## Left out

- `FabricClient.connectAsClient` only forwards to the generic RPC client, which is not part of this model; nor is the order in which that client calls `validateHandshake` and `finalizeConnection`.
- `FabricClient.getDecoder`: the length decoder's body is not part of this model, so no wire format is modelled.
- The `volatile` connection field and all concurrency, sockets, event loops and buffer allocation: collaborators are opaque identifiers.
- `FabricConnection` is not part of this model beyond its constructor arguments and its identity, taken to be absent until finalised.
- `Fabric.ValidateHandshake`: versions are unbounded integers, and `%d` is modelled assuming a default format locale with ASCII digits and a leading '-'; locale-specific digits are not modelled.
- `Catalog.PartialTableMetadata.Forward`: what the materialised pointer answers (version, digest, schema, split ratio, record count, pruning) is not modelled, since `TableMetadataImpl` is opaque here; the model states only that the call reaches the loaded pointer.
- `Catalog.PartialTableMetadata.Equals`: `Objects.equal` on `TableMetadataImpl` is modelled as structural equality of the opaque record.
- `Catalog.PartialTableMetadata.HashCode`: the pointer's own hash code is a parameter, since `TableMetadataImpl.hashCode` is not part of this model.
- `Catalog.Load`: `DatasetSplitsPointer.of(ns, config)` is modelled as a pointer to the configuration only, without the namespace reference.
- `Catalog.CarryOver`: `setId`/`setTag` mutate the object the source definition returned; the model copies a value, so aliasing of that object is not captured.
- `Catalog.NamespaceService`: why `addOrUpdateDataset` throws (concurrent modification, storage errors) is abstracted to a fixed `acceptsWrites` flag; a null namespace throws NullPointerException, which loading wraps like any other failure. A null configuration returned by `getDataset` is one of the source definition's failures (it throws at `setId`, before any change); a null list from `getSplits` is modelled explicitly. Whether the real namespace accepts a null splits list is not known here; the model lets the write proceed whenever `acceptsWrites` holds.
- `UnorderedDeMuxExchangePrel` and `AcceleratorStoragePluginService`: planner glue and a filesystem `mkdirs`, with no logic of their own to verify.
