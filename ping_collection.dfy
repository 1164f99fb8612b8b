/** Provisioning of the "pings" time-series collection and the cached handle
    to it (lib/mongo/collections/ping.collection.ts).

    The database is modelled as a map from collection name to configuration.
    The driver calls that touch it (getClient, listCollections,
    createCollection) are given by their outcome: None for success, or the
    error they throw. */
module PingCollection {
  import opened Wrappers
  import opened Mongo

  /** The collection the provisioner manages (ping.collection.ts:12). */
  const CollectionName := "pings"

  datatype Granularity = Seconds | Minutes | Hours

  /** The time-series options of a collection. */
  datatype TimeSeries = TimeSeries(timeField: string, metaField: string, granularity: Granularity)

  /** What the database stores about one collection. */
  datatype CollectionConfig = CollectionConfig(
    timeseries: Option<TimeSeries>,
    expireAfterSeconds: Option<int>)

  /** The entry listCollections returns for one collection. */
  datatype CollectionInfo = CollectionInfo(name: string, config: CollectionConfig)

  /** The value db.collection(name) returns: a reference, not the data. */
  datatype CollectionHandle = CollectionHandle(dbName: string, name: string)

  /** The error getPingCollection throws (ping.collection.ts:64-68). */
  datatype CollectionError = NotInitialized

  /** The outcomes of the three driver calls made by one initialisation. */
  datatype DriverOutcomes = DriverOutcomes(
    getClient: Option<MongoError>,
    listCollections: Option<MongoError>,
    createCollection: Option<MongoError>)

  /** The options createCollection receives (ping.collection.ts:28, 34-41):
      a time series on "timestamp" grouped by "driverId" at the granularity
      of seconds, expiring after the retention period in seconds. */
  function PingsConfig(retentionDays: int): (c: CollectionConfig)
    ensures c.timeseries == Some(TimeSeries("timestamp", "driverId", Seconds))
    ensures c.expireAfterSeconds == Some(retentionDays * 86400)
  {
    var ttlSeconds := retentionDays * 24 * 60 * 60;
    CollectionConfig(Some(TimeSeries("timestamp", "driverId", Seconds)), Some(ttlSeconds))
  }

  /** listCollections({ name }).toArray(): the entries named name. */
  function ListCollections(store: map<string, CollectionConfig>, name: string): (r: seq<CollectionInfo>)
    ensures |r| == 0 <==> name !in store
    ensures forall i :: 0 <= i < |r| ==> r[i] == CollectionInfo(name, store[name])
  {
    if name in store then [CollectionInfo(name, store[name])] else []
  }

  /** The store, the cache and what one run of initializePingCollection threw. */
  datatype InitRun = InitRun(
    store: map<string, CollectionConfig>,
    cache: Option<CollectionHandle>,
    thrown: Option<MongoError>)

  /** Nothing but "pings" may differ between two stores. */
  ghost predicate SameOutsidePings(a: map<string, CollectionConfig>, b: map<string, CollectionConfig>) {
    forall n :: n != CollectionName ==>
      (n in a <==> n in b) && (n in a ==> a[n] == b[n])
  }

  /** One run of initializePingCollection (ping.collection.ts:16-57). */
  function Initialize(
    store: map<string, CollectionConfig>, cache: Option<CollectionHandle>,
    dbName: string, retentionDays: int, out: DriverOutcomes): (r: InitRun)
    // a failure rethrows and leaves the store and the cache as they were
    ensures r.thrown.Some? ==> r.store == store && r.cache == cache
    // a success caches the handle of "pings", which then exists
    ensures r.thrown.None? ==>
      r.cache == Some(CollectionHandle(dbName, CollectionName)) && CollectionName in r.store
    // an existing "pings" is never altered
    ensures CollectionName in store ==> r.store == store
    // a created "pings" gets exactly the time-series configuration
    ensures CollectionName !in store && r.thrown.None? ==>
      r.store == store[CollectionName := PingsConfig(retentionDays)]
    // no other collection is touched
    ensures SameOutsidePings(store, r.store)
    // which call fails decides the run, and its own error is the one rethrown
    ensures out.getClient.Some? ==> r.thrown == out.getClient
    ensures out.getClient.None? && out.listCollections.Some? ==> r.thrown == out.listCollections
    ensures CreatesCollection(store, out) ==> r.thrown == out.createCollection
    ensures out.getClient.None? && out.listCollections.None? && CollectionName in store ==>
      r.thrown.None?
  {
    if out.getClient.Some? then InitRun(store, cache, out.getClient)
    else if out.listCollections.Some? then InitRun(store, cache, out.listCollections)
    else
      var collections := ListCollections(store, CollectionName);
      if |collections| == 0 then
        if out.createCollection.Some? then InitRun(store, cache, out.createCollection)
        else InitRun(store[CollectionName := PingsConfig(retentionDays)],
                     Some(CollectionHandle(dbName, CollectionName)), None)
      else InitRun(store, Some(CollectionHandle(dbName, CollectionName)), None)
  }

  /** createCollection is issued exactly when no listing error occurs and
      the listing for "pings" is empty (ping.collection.ts:21-25, 34). */
  predicate CreatesCollection(store: map<string, CollectionConfig>, out: DriverOutcomes) {
    out.getClient.None? && out.listCollections.None? && |ListCollections(store, CollectionName)| == 0
  }

  /** The store changes only through createCollection, and only on its
      success. */
  lemma StoreChangesOnlyByCreation(
    store: map<string, CollectionConfig>, cache: Option<CollectionHandle>,
    dbName: string, retentionDays: int, out: DriverOutcomes)
    ensures var r := Initialize(store, cache, dbName, retentionDays, out);
      r.store != store <==> CreatesCollection(store, out) && out.createCollection.None?
  {
    var r := Initialize(store, cache, dbName, retentionDays, out);
    if CreatesCollection(store, out) && out.createCollection.None? {
      assert CollectionName in r.store && CollectionName !in store;
    }
  }

  /** Idempotence (ping.collection.ts:25, 46-50): after a successful run, a
      second run, whatever its driver calls do, leaves the same store and a
      cached handle to the same collection (handles are compared by database
      and collection name); two successful runs give what one gives. */
  lemma InitializeIdempotent(
    store: map<string, CollectionConfig>, cache: Option<CollectionHandle>,
    dbName: string, retentionDays: int, first: DriverOutcomes, second: DriverOutcomes)
    requires Initialize(store, cache, dbName, retentionDays, first).thrown.None?
    ensures var r1 := Initialize(store, cache, dbName, retentionDays, first);
      var r2 := Initialize(r1.store, r1.cache, dbName, retentionDays, second);
      r2.store == r1.store && r2.cache == r1.cache
  {
  }

  /** The provisioner and the module-level pingCollection variable. */
  class PingCollections {
    const dbName: string
    const retentionDays: int
    var store: map<string, CollectionConfig>
    var pingCollection: Option<CollectionHandle>

    /** The module starts with the cache unset (ping.collection.ts:14);
        the database holds whatever it holds. */
    constructor (dbName: string, retentionDays: int, store: map<string, CollectionConfig>)
      ensures this.dbName == dbName && this.retentionDays == retentionDays
      ensures this.store == store && pingCollection == None
    {
      this.dbName := dbName;
      this.retentionDays := retentionDays;
      this.store := store;
      pingCollection := None;
    }

    /** initializePingCollection (ping.collection.ts:16-57). */
    method InitializePingCollection(out: DriverOutcomes) returns (thrown: Option<MongoError>)
      modifies this
      ensures InitRun(store, pingCollection, thrown) ==
        Initialize(old(store), old(pingCollection), dbName, retentionDays, out)
    {
      if out.getClient.Some? {
        return out.getClient;
      }
      if out.listCollections.Some? {
        return out.listCollections;
      }
      var collections := ListCollections(store, CollectionName);
      if |collections| == 0 {
        if out.createCollection.Some? {
          return out.createCollection;
        }
        store := store[CollectionName := PingsConfig(retentionDays)];
      }
      pingCollection := Some(CollectionHandle(dbName, CollectionName));
      thrown := None;
    }

    /** getPingCollection (ping.collection.ts:63-70): the cached handle, or
        NotInitialized while the cache is unset. */
    method GetPingCollection() returns (r: Result<CollectionHandle, CollectionError>)
      ensures pingCollection.None? <==> r.Err?
      ensures r.Err? ==> r.error == NotInitialized
      ensures r.Ok? ==> pingCollection == Some(r.value)
    {
      if pingCollection.None? {
        return Err(NotInitialized);
      }
      return Ok(pingCollection.value);
    }
  }
}
