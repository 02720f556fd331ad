/**
 * A lazily materialised table: a `PartialTableMetadata` starts from a dataset
 * configuration and builds the full `TableMetadataImpl` the first time a
 * caller needs it, fetching the dataset afresh from its source and recording
 * it in the namespace when the configuration has no read definition yet.
 */
module Catalog {
  import opened Wrappers
  import opened JavaInt

  // Opaque values of the catalog; only their identity matters here.
  datatype EntityId = EntityId(id: string)
  datatype StoragePluginId = StoragePluginId(pluginName: string)
  datatype DatasetType = DatasetType(code: int)
  datatype ReadDefinition = ReadDefinition(splitVersion: int)
  datatype FileConfig = FileConfig(formatType: string)
  datatype PhysicalDataset = PhysicalDataset(formatSettings: Option<FileConfig>)
  datatype DatasetSplit = DatasetSplit(splitKey: string)
  datatype SearchQuery = SearchQuery(query: string)
  datatype SplitPredicate = SplitPredicate(predicateId: nat)

  /** A dataset's configuration as stored in the namespace; absent fields are Java nulls. */
  datatype DatasetConfig = DatasetConfig(
    id: Option<EntityId>,
    tag: Option<string>,
    fullPathList: seq<string>,
    datasetType: DatasetType,
    readDefinition: Option<ReadDefinition>,
    physicalDataset: Option<PhysicalDataset>)

  /** The key a dataset is stored under: its full path. */
  datatype NamespaceKey = NamespaceKey(pathComponents: seq<string>)

  /** What the namespace stores for one dataset; the splits list may be null. */
  datatype DatasetEntry = DatasetEntry(config: DatasetConfig, splits: Option<seq<DatasetSplit>>)

  /** Where the splits of a table come from: looked up for the configuration, or held in memory. */
  datatype SplitsPointer =
    | DatasetSplitsPointer(config: DatasetConfig)
    | MaterializedSplitsPointer(splits: seq<DatasetSplit>, totalSplitCount: int)

  /** The fully materialised table metadata, built from these four values. */
  datatype TableMetadataImpl = TableMetadataImpl(
    plugin: StoragePluginId, config: DatasetConfig, user: Option<string>, splitsPointer: SplitsPointer)

  /**
   * The source's definition of the table: what `getDataset` and `getSplits`
   * return, or the exception they throw; `getSplits` may return a null list.
   * It answers the same on every call.
   */
  datatype SourceTableDefinition = SourceTableDefinition(
    dataset: Result<DatasetConfig, string>,
    splits: Result<Option<seq<DatasetSplit>>, string>)

  datatype CatalogError =
    | NullPointerException
    | SourceException(reason: string)
    | NamespaceException
    | RuntimeException(cause: CatalogError)

  /** The name a configuration's dataset is known by. */
  function NameOf(config: DatasetConfig): NamespaceKey {
    NamespaceKey(config.fullPathList)
  }

  /** The fetched configuration keeps the identity and version tag of the one it replaces. */
  function CarryOver(fetched: DatasetConfig, current: DatasetConfig): (c: DatasetConfig)
    ensures c.id == current.id && c.tag == current.tag
    ensures c.fullPathList == fetched.fullPathList && c.datasetType == fetched.datasetType
    ensures c.readDefinition == fetched.readDefinition && c.physicalDataset == fetched.physicalDataset
  {
    fetched.(id := current.id, tag := current.tag)
  }

  /** The state loading reads and writes: the table's two fields and the namespace, if there is one. */
  datatype Snapshot = Snapshot(
    config: DatasetConfig,
    pointer: Option<TableMetadataImpl>,
    store: Option<map<NamespaceKey, DatasetEntry>>)

  datatype LoadResult = LoadResult(outcome: Outcome<CatalogError>, after: Snapshot)

  /**
   * The one failure that comes after the namespace write and the configuration
   * swap: the source returned a null splits list, so taking its size throws.
   */
  predicate FailsAfterSwap(accessor: SourceTableDefinition, writable: bool, s: Snapshot) {
    s.pointer.None? && s.config.readDefinition.None? &&
    accessor.dataset.Success? && accessor.splits.Success? && accessor.splits.value.None? &&
    s.store.Some? && writable
  }

  /**
   * `loadIfNecessary` on the state `s`, given the table's fixed plugin, user
   * and source definition and whether the namespace accepts the write.
   */
  function Load(plugin: StoragePluginId, user: Option<string>, accessor: SourceTableDefinition,
                writable: bool, s: Snapshot): (r: LoadResult)
    // Once loaded, nothing changes.
    ensures s.pointer.Some? ==> r == LoadResult(Pass, s)
    // Loading succeeds exactly when it leaves the table loaded; a failure is a RuntimeException.
    ensures r.outcome.Pass? <==> r.after.pointer.Some?
    ensures r.outcome.Fail? ==> r.after.pointer.None? && r.outcome.error.RuntimeException?
    // A failure before the configuration swap changes nothing.
    ensures r.outcome.Fail? && !FailsAfterSwap(accessor, writable, s) ==> r.after == s
    // A null splits list fails only after the namespace write and the swap, which both remain.
    ensures FailsAfterSwap(accessor, writable, s) ==>
      r.outcome == Fail(RuntimeException(NullPointerException)) &&
      r.after.config == CarryOver(accessor.dataset.value, s.config) &&
      r.after.store == Some(s.store.value[NameOf(s.config) := DatasetEntry(r.after.config, None)])
    // A newly built pointer is built from the table's plugin, user and current configuration.
    ensures s.pointer.None? && r.outcome.Pass? ==>
      r.after.pointer.value.plugin == plugin && r.after.pointer.value.user == user &&
      r.after.pointer.value.config == r.after.config
    // With a read definition: the pointer refers to the current configuration; it and the namespace stay.
    ensures s.pointer.None? && s.config.readDefinition.Some? ==>
      r.outcome.Pass? && r.after.config == s.config && r.after.store == s.store &&
      r.after.pointer.value.splitsPointer == DatasetSplitsPointer(s.config)
    // Without one: loading succeeds exactly when fetching a list and storing both succeed.
    ensures s.pointer.None? && s.config.readDefinition.None? ==>
      (r.outcome.Pass? <==>
        accessor.dataset.Success? && accessor.splits.Success? && accessor.splits.value.Some? &&
        s.store.Some? && writable)
    // and then the fetched configuration, with the old id and tag, is stored under the old
    // name with the fetched splits, becomes current, and its splits are held in memory.
    ensures s.pointer.None? && s.config.readDefinition.None? && r.outcome.Pass? ==>
      r.after.config == CarryOver(accessor.dataset.value, s.config) &&
      r.after.store == Some(s.store.value[NameOf(s.config) := DatasetEntry(r.after.config, accessor.splits.value)]) &&
      r.after.pointer.value.splitsPointer ==
        MaterializedSplitsPointer(accessor.splits.value.value, |accessor.splits.value.value|)
  {
    if s.pointer.Some? then
      LoadResult(Pass, s)
    else if s.config.readDefinition.Some? then
      LoadResult(Pass, s.(pointer := Some(TableMetadataImpl(plugin, s.config, user, DatasetSplitsPointer(s.config)))))
    else if accessor.dataset.Failure? then
      LoadResult(Fail(RuntimeException(SourceException(accessor.dataset.error))), s)
    else if accessor.splits.Failure? then
      LoadResult(Fail(RuntimeException(SourceException(accessor.splits.error))), s)
    else if s.store.None? then
      LoadResult(Fail(RuntimeException(NullPointerException)), s)
    else if !writable then
      LoadResult(Fail(RuntimeException(NamespaceException)), s)
    else
      var config := CarryOver(accessor.dataset.value, s.config);
      var splits := accessor.splits.value;
      var store := Some(s.store.value[NameOf(s.config) := DatasetEntry(config, splits)]);
      if splits.None? then
        LoadResult(Fail(RuntimeException(NullPointerException)), Snapshot(config, None, store))
      else
        LoadResult(Pass, Snapshot(
          config,
          Some(TableMetadataImpl(plugin, config, user, MaterializedSplitsPointer(splits.value, |splits.value|))),
          store))
  }

  /** Loading is idempotent: a second load after a successful one changes nothing. */
  lemma LoadIdempotent(plugin: StoragePluginId, user: Option<string>, accessor: SourceTableDefinition,
                       writable: bool, s: Snapshot)
    requires Load(plugin, user, accessor, writable, s).outcome.Pass?
    ensures Load(plugin, user, accessor, writable, Load(plugin, user, accessor, writable, s).after)
         == LoadResult(Pass, Load(plugin, user, accessor, writable, s).after)
  {
  }

  /** A loaded table, and one with a read definition, never consult the source or the namespace's write. */
  lemma LoadIgnoresSourceWithReadDefinition(plugin: StoragePluginId, user: Option<string>,
                                            a1: SourceTableDefinition, w1: bool,
                                            a2: SourceTableDefinition, w2: bool, s: Snapshot)
    requires s.pointer.Some? || s.config.readDefinition.Some?
    ensures Load(plugin, user, a1, w1, s) == Load(plugin, user, a2, w2, s)
  {
  }

  /** The namespace: datasets by name. Writes may be refused, as `addOrUpdateDataset` may throw. */
  class NamespaceService {
    var datasets: map<NamespaceKey, DatasetEntry>
    const acceptsWrites: bool

    constructor (datasets: map<NamespaceKey, DatasetEntry>, acceptsWrites: bool)
      ensures this.datasets == datasets && this.acceptsWrites == acceptsWrites
    {
      this.datasets := datasets;
      this.acceptsWrites := acceptsWrites;
    }

    method AddOrUpdateDataset(name: NamespaceKey, config: DatasetConfig, splits: Option<seq<DatasetSplit>>)
      returns (r: Outcome<CatalogError>)
      modifies this
      ensures r.Pass? == acceptsWrites
      ensures r.Fail? ==> r.error == NamespaceException
      ensures datasets == if acceptsWrites then old(datasets)[name := DatasetEntry(config, splits)] else old(datasets)
    {
      if acceptsWrites {
        datasets := datasets[name := DatasetEntry(config, splits)];
        r := Pass;
      } else {
        r := Fail(NamespaceException);
      }
    }
  }

  /** The loading accessors of the table, each of which is answered by the materialised pointer. */
  datatype TableCall =
    | GetVersion
    | ComputeDigest
    | GetSplitsKey
    | GetSplits
    | GetSplitRatio
    | PruneByQuery(query: SearchQuery)
    | PruneByPredicate(splitPredicate: SplitPredicate)
    | PruneToSplits(newSplits: seq<DatasetSplit>)
    | GetSplitCount
    | GetSchema
    | GetApproximateRecordCount
    | IsPruned

  /** A call handed on to the materialised table metadata. */
  datatype Forwarded = Forwarded(call: TableCall, target: TableMetadataImpl)

  /** The argument of `equals`: another table, or any other object (null included). */
  datatype EqualsArgument = PartialTable(table: PartialTableMetadata) | OtherObject

  class PartialTableMetadata {
    const datasetAccessor: SourceTableDefinition
    const ns: NamespaceService?
    const pluginId: StoragePluginId
    const user: Option<string>
    var datasetConfig: DatasetConfig
    var datasetPointer: Option<TableMetadataImpl>

    /** A materialised pointer always describes the table's plugin, user and current configuration. */
    ghost predicate Valid()
      reads this
    {
      datasetPointer.Some? ==>
        datasetPointer.value.plugin == pluginId && datasetPointer.value.user == user &&
        datasetPointer.value.config == datasetConfig
    }

    function State(): Snapshot
      reads this, ns
    {
      Snapshot(datasetConfig, datasetPointer, if ns == null then None else Some(ns.datasets))
    }

    constructor (plugin: StoragePluginId, config: DatasetConfig, user: Option<string>,
                 namespace: NamespaceService?, datasetAccessor: SourceTableDefinition)
      ensures Valid()
      ensures this.pluginId == plugin && this.datasetConfig == config && this.user == user
      ensures this.ns == namespace && this.datasetAccessor == datasetAccessor
      ensures datasetPointer == None
    {
      this.datasetAccessor := datasetAccessor;
      this.datasetConfig := config;
      this.pluginId := plugin;
      this.user := user;
      this.ns := namespace;
      datasetPointer := None;
    }

    /** Materialises the table unless it already is; the new state is the one `Load` describes. */
    method LoadIfNecessary() returns (r: Outcome<CatalogError>)
      requires Valid()
      modifies this, ns
      ensures Valid()
      ensures LoadResult(r, State())
           == Load(pluginId, user, datasetAccessor, ns != null && ns.acceptsWrites, old(State()))
    {
      if datasetPointer.Some? {
        return Pass;
      }
      var splitsPointer: SplitsPointer;
      if datasetConfig.readDefinition.Some? {
        splitsPointer := DatasetSplitsPointer(datasetConfig);
      } else {
        if datasetAccessor.dataset.Failure? {
          return Fail(RuntimeException(SourceException(datasetAccessor.dataset.error)));
        }
        var newDatasetConfig := CarryOver(datasetAccessor.dataset.value, datasetConfig);
        if datasetAccessor.splits.Failure? {
          return Fail(RuntimeException(SourceException(datasetAccessor.splits.error)));
        }
        var splits := datasetAccessor.splits.value;
        if ns == null {
          return Fail(RuntimeException(NullPointerException));
        }
        var stored := ns.AddOrUpdateDataset(GetName(), newDatasetConfig, splits);
        if stored.Fail? {
          return Fail(RuntimeException(stored.error));
        }
        datasetConfig := newDatasetConfig;
        if splits.None? {
          return Fail(RuntimeException(NullPointerException));
        }
        splitsPointer := MaterializedSplitsPointer(splits.value, |splits.value|);
      }
      datasetPointer := Some(TableMetadataImpl(pluginId, datasetConfig, user, splitsPointer));
      r := Pass;
    }

    /** The name is derived from the current configuration's path, without loading. */
    function GetName(): (name: NamespaceKey)
      reads this
      ensures name.pathComponents == datasetConfig.fullPathList
    {
      NameOf(datasetConfig)
    }

    /** The plugin given at construction; it never changes and needs no loading. */
    function GetStoragePluginId(): (id: StoragePluginId)
      ensures id == pluginId
    {
      pluginId
    }

    /** The user given at construction, possibly absent; no loading. */
    function GetUser(): (u: Option<string>)
      ensures u == user
    {
      user
    }

    /** The current configuration's read definition, without loading. */
    function GetReadDefinition(): (rd: Option<ReadDefinition>)
      reads this
      ensures rd == datasetConfig.readDefinition
    {
      datasetConfig.readDefinition
    }

    /** The current configuration's type, without loading. */
    function GetType(): (t: DatasetType)
      reads this
      ensures t == datasetConfig.datasetType
    {
      datasetConfig.datasetType
    }

    /** The current configuration, which loading may have replaced; no loading. */
    function GetDatasetConfig(): (c: DatasetConfig)
      reads this
      ensures c == datasetConfig
    {
      datasetConfig
    }

    /** Every other accessor loads first and then asks the materialised pointer. */
    method Forward(call: TableCall) returns (r: Result<Forwarded, CatalogError>)
      requires Valid()
      modifies this, ns
      ensures Valid()
      ensures var l := Load(pluginId, user, datasetAccessor, ns != null && ns.acceptsWrites, old(State()));
        State() == l.after &&
        (l.outcome.Fail? ==> r == Failure(l.outcome.error)) &&
        (l.outcome.Pass? ==> r == Success(Forwarded(call, l.after.pointer.value)))
    {
      var loaded := LoadIfNecessary();
      if loaded.Fail? {
        return Failure(loaded.error);
      }
      r := Success(Forwarded(call, datasetPointer.value));
    }

    /** Loads, then reads the format settings of the configuration that is current after loading. */
    method GetFormatSettings() returns (r: Result<Option<FileConfig>, CatalogError>)
      requires Valid()
      modifies this, ns
      ensures Valid()
      ensures var l := Load(pluginId, user, datasetAccessor, ns != null && ns.acceptsWrites, old(State()));
        State() == l.after &&
        (l.outcome.Fail? ==> r == Failure(l.outcome.error)) &&
        (l.outcome.Pass? && l.after.config.physicalDataset.None? ==> r == Failure(NullPointerException)) &&
        (l.outcome.Pass? && l.after.config.physicalDataset.Some? ==>
          r == Success(l.after.config.physicalDataset.value.formatSettings))
    {
      var loaded := LoadIfNecessary();
      if loaded.Fail? {
        return Failure(loaded.error);
      }
      if datasetConfig.physicalDataset.None? {
        return Failure(NullPointerException);
      }
      r := Success(datasetConfig.physicalDataset.value.formatSettings);
    }

    /**
     * Loads this table only, then compares pointers: anything that is not a
     * table is unequal, and an unloaded peer's absent pointer is compared as it is.
     */
    method Equals(other: EqualsArgument) returns (r: Result<bool, CatalogError>)
      requires Valid()
      modifies this, ns
      ensures Valid()
      ensures var l := Load(pluginId, user, datasetAccessor, ns != null && ns.acceptsWrites, old(State()));
        State() == l.after &&
        (l.outcome.Fail? ==> r == Failure(l.outcome.error)) &&
        (l.outcome.Pass? ==>
          r.Success? && (r.value <==> other.PartialTable? && other.table.datasetPointer == datasetPointer))
      ensures other.PartialTable? && other.table != this ==>
        other.table.datasetPointer == old(other.table.datasetPointer)
    {
      var loaded := LoadIfNecessary();
      if loaded.Fail? {
        return Failure(loaded.error);
      }
      if !other.PartialTable? {
        return Success(false);
      }
      r := Success(other.table.datasetPointer == datasetPointer);
    }

    /**
     * Loads, then returns `Objects.hashCode(pointer)`, that is `31 + h` in
     * `int` arithmetic, where `h` is the pointer's own hash code.
     */
    method HashCode(pointerHash: TableMetadataImpl -> Int32) returns (r: Result<Int32, CatalogError>)
      requires Valid()
      modifies this, ns
      ensures Valid()
      ensures var l := Load(pluginId, user, datasetAccessor, ns != null && ns.acceptsWrites, old(State()));
        State() == l.after &&
        (l.outcome.Fail? ==> r == Failure(l.outcome.error)) &&
        (l.outcome.Pass? ==> r == Success(Wrap32(31 + pointerHash(l.after.pointer.value))))
    {
      var loaded := LoadIfNecessary();
      if loaded.Fail? {
        return Failure(loaded.error);
      }
      r := Success(Wrap32(31 * 1 + pointerHash(datasetPointer.value)));
    }
  }

  /**
   * The constructor's null checks: the source definition, the configuration
   * and the plugin must be present; the user and the namespace may be null.
   */
  method Create(plugin: Option<StoragePluginId>, config: Option<DatasetConfig>, user: Option<string>,
                namespace: NamespaceService?, datasetAccessor: Option<SourceTableDefinition>)
    returns (r: Result<PartialTableMetadata, CatalogError>)
    ensures r.Failure? <==> plugin.None? || config.None? || datasetAccessor.None?
    ensures r.Failure? ==> r.error == NullPointerException
    ensures r.Success? ==>
      fresh(r.value) && r.value.Valid() && r.value.datasetPointer == None &&
      r.value.pluginId == plugin.value && r.value.datasetConfig == config.value &&
      r.value.user == user && r.value.ns == namespace && r.value.datasetAccessor == datasetAccessor.value
  {
    if datasetAccessor.None? || config.None? || plugin.None? {
      return Failure(NullPointerException);
    }
    var table := new PartialTableMetadata(plugin.value, config.value, user, namespace, datasetAccessor.value);
    r := Success(table);
  }
}
