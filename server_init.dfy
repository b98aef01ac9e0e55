/** Server construction: `server_init` acquires six resources in a fixed
    order (the instance, the storage block, the bucket array, the storage
    mutex, the client table, the clients mutex). If any step fails, those
    already acquired are released in reverse order and NULL is returned.
    Whether each allocation or mutex initialisation succeeds is a parameter. */
module ServerInit {
  import opened CTypes

  type uint16 = x: int | 0 <= x < 0x1_0000

  const SERVER_DEFAULT_PORT: nat := 6898
  const SERVER_MAX_CLIENTS: nat := 10000
  const INITIAL_STORAGE_CAPACITY: nat := 1024
  const INITIAL_STORAGE_SIZE: nat := 0
  const INITIAL_SERVER_FD: int := -1
  const INITIAL_THREAD_ID: nat := 0
  const INITIAL_CLIENT_COUNT: nat := 0
  const INITIAL_ERROR_MESSAGE: string := ""
  const INITIAL_START_TIME: int := 0

  datatype ServerMode = Standalone | Cluster | Replica

  datatype ServerStatus = Idle | Stopped | Starting | Running | ShuttingDown | Error

  const INITIAL_SERVER_STATUS: ServerStatus := Stopped

  datatype ServerConfig = ServerConfig(
    port: uint16,
    maxClients: uint32,
    maxMemory: uint64,
    mode: ServerMode,
    bindAddress: Option<CString>,
    dataDirectory: Option<CString>,
    persistenceEnabled: bool,
    persistenceInterval: int)

  /** One stored key/value pair of a bucket chain. */
  datatype Entry = Entry(key: CString, value: CString, expiresAt: int)

  /** A `client_context_t` slot; `calloc` gives every slot all-zero fields. */
  datatype ClientContext = ClientContext(fd: int, addrHost: nat, addrPort: nat, threadId: nat, connected: bool)

  const ZERO_CLIENT: ClientContext := ClientContext(0, 0, 0, 0, false)

  /** What the C library answers at each acquisition step. */
  datatype Environment = Environment(
    serverAlloc: bool,
    storageAlloc: bool,
    bucketsAlloc: bool,
    storageLockInit: bool,
    clientsAlloc: bool,
    clientsLockInit: bool)

  /** The six resources, in acquisition order. */
  datatype Resource = ServerBlock | StorageBlock | BucketArray | StorageLock | ClientTable | ClientsLock

  datatype ResourceEvent = Acquire(r: Resource) | Release(r: Resource)

  const STEPS: seq<Resource> := [ServerBlock, StorageBlock, BucketArray, StorageLock, ClientTable, ClientsLock]

  function StepSucceeds(env: Environment, i: nat): bool
    requires i < |STEPS|
  {
    [env.serverAlloc, env.storageAlloc, env.bucketsAlloc,
     env.storageLockInit, env.clientsAlloc, env.clientsLockInit][i]
  }

  /** The number of leading steps that succeed. */
  function Acquired(env: Environment, from: nat): (k: nat)
    requires from <= |STEPS|
    ensures from <= k <= |STEPS|
    ensures forall i :: from <= i < k ==> StepSucceeds(env, i)
    ensures k < |STEPS| ==> !StepSucceeds(env, k)
    decreases |STEPS| - from
  {
    if from == |STEPS| || !StepSucceeds(env, from) then from else Acquired(env, from + 1)
  }

  function Acquires(rs: seq<Resource>): seq<ResourceEvent> {
    if rs == [] then [] else [Acquire(rs[0])] + Acquires(rs[1..])
  }

  function ReleasesInReverse(rs: seq<Resource>): seq<ResourceEvent> {
    if rs == [] then [] else [Release(rs[|rs| - 1])] + ReleasesInReverse(rs[..|rs| - 1])
  }

  /** The resource events of `server_init`: a NULL configuration touches
      nothing; otherwise the successful prefix of steps is acquired, and on a
      failure released again, last acquired first. */
  function InitTrace(config: Option<ServerConfig>, env: Environment): seq<ResourceEvent> {
    if config.None? then []
    else
      var k := Acquired(env, 0);
      if k == |STEPS| then Acquires(STEPS) else Acquires(STEPS[..k]) + ReleasesInReverse(STEPS[..k])
  }

  function Count(trace: seq<ResourceEvent>, e: ResourceEvent): nat {
    if trace == [] then 0 else (if trace[0] == e then 1 else 0) + Count(trace[1..], e)
  }

  lemma {:induction false} CountAppend(a: seq<ResourceEvent>, b: seq<ResourceEvent>, e: ResourceEvent)
    ensures Count(a + b, e) == Count(a, e) + Count(b, e)
  {
    if a == [] {
      assert a + b == b;
    } else {
      CountAppend(a[1..], b, e);
      assert (a + b)[1..] == a[1..] + b;
    }
  }

  lemma {:induction false} AcquiresCount(rs: seq<Resource>, r: Resource)
    ensures Count(Acquires(rs), Acquire(r)) == multiset(rs)[r]
    ensures Count(Acquires(rs), Release(r)) == 0
  {
    if rs != [] {
      AcquiresCount(rs[1..], r);
      assert rs == [rs[0]] + rs[1..];
    }
  }

  lemma {:induction false} ReleasesCount(rs: seq<Resource>, r: Resource)
    ensures Count(ReleasesInReverse(rs), Release(r)) == multiset(rs)[r]
    ensures Count(ReleasesInReverse(rs), Acquire(r)) == 0
  {
    if rs != [] {
      ReleasesCount(rs[..|rs| - 1], r);
      assert rs == rs[..|rs| - 1] + [rs[|rs| - 1]];
    }
  }

  /** A sequence without repetitions holds each element at most once. */
  lemma {:induction false} DistinctAtMostOnce(rs: seq<Resource>, r: Resource)
    requires forall i, j :: 0 <= i < j < |rs| ==> rs[i] != rs[j]
    ensures multiset(rs)[r] <= 1
  {
    if rs != [] {
      DistinctAtMostOnce(rs[1..], r);
      assert rs == [rs[0]] + rs[1..];
      if rs[0] == r {
        assert r !in rs[1..];
      }
    }
  }

  /** Acquiring distinct resources and releasing them all in reverse leaves
      every resource balanced and touched at most once. */
  lemma ReleaseAllBalanced(held: seq<Resource>, r: Resource)
    requires forall i, j :: 0 <= i < j < |held| ==> held[i] != held[j]
    ensures var trace := Acquires(held) + ReleasesInReverse(held);
      Count(trace, Acquire(r)) <= 1 && Count(trace, Release(r)) == Count(trace, Acquire(r))
  {
    DistinctAtMostOnce(held, r);
    AcquiresCount(held, r);
    ReleasesCount(held, r);
    CountAppend(Acquires(held), ReleasesInReverse(held), Acquire(r));
    CountAppend(Acquires(held), ReleasesInReverse(held), Release(r));
  }

  /** No leak and no double release: on every failure path each resource is
      released exactly as often as it was acquired, and at most once. */
  lemma FailedInitBalanced(config: ServerConfig, env: Environment, r: Resource)
    requires Acquired(env, 0) < |STEPS|
    ensures var trace := InitTrace(Some(config), env);
      Count(trace, Acquire(r)) <= 1 && Count(trace, Release(r)) == Count(trace, Acquire(r))
  {
    ReleaseAllBalanced(STEPS[..Acquired(env, 0)], r);
  }

  /** On success all six resources are held, each once, and none released. */
  lemma SuccessfulInitHoldsAll(config: ServerConfig, env: Environment, r: Resource)
    requires Acquired(env, 0) == |STEPS|
    ensures var trace := InitTrace(Some(config), env);
      Count(trace, Acquire(r)) == 1 && Count(trace, Release(r)) == 0
  {
    AcquiresCount(STEPS, r);
    assert multiset(STEPS)[r] == 1;
  }

  /** Releases never precede their acquisition: every release in the trace
      comes after every acquisition. */
  lemma InitTraceAcquiresFirst(config: Option<ServerConfig>, env: Environment)
    ensures var trace := InitTrace(config, env);
      forall i, j :: 0 <= i < j < |trace| && trace[i].Release? ==> trace[j].Release?
  {
    if config.Some? {
      var k := Acquired(env, 0);
      AcquiresOnly(STEPS[..k]);
      ReleasesOnly(STEPS[..k]);
    }
  }

  lemma {:induction false} AcquiresOnly(rs: seq<Resource>)
    ensures |Acquires(rs)| == |rs| && forall i :: 0 <= i < |rs| ==> Acquires(rs)[i] == Acquire(rs[i])
  {
    if rs != [] {
      AcquiresOnly(rs[1..]);
    }
  }

  lemma {:induction false} ReleasesOnly(rs: seq<Resource>)
    ensures |ReleasesInReverse(rs)| == |rs|
    ensures forall i :: 0 <= i < |rs| ==> ReleasesInReverse(rs)[i] == Release(rs[|rs| - 1 - i])
  {
    if rs != [] {
      ReleasesOnly(rs[..|rs| - 1]);
    }
  }

  /** Every bucket head of the array is NULL. */
  predicate AllBucketsEmpty(b: array<seq<Entry>>)
    reads b
  {
    forall i :: 0 <= i < b.Length ==> b[i] == []
  }

  /** Every slot of the client table is all-zero. */
  predicate AllClientsZero(c: array<ClientContext>)
    reads c
  {
    forall i :: 0 <= i < c.Length ==> c[i] == ZERO_CLIENT
  }

  class Storage {
    var buckets: array<seq<Entry>>
    var capacity: nat
    var size: nat
    var lockInitialized: bool

    /** An empty table of `capacity` bucket heads, all NULL, with its mutex ready. */
    predicate Empty()
      reads this, buckets
    {
      capacity == INITIAL_STORAGE_CAPACITY && size == INITIAL_STORAGE_SIZE &&
      buckets.Length == capacity && AllBucketsEmpty(buckets) && lockInitialized
    }

    /** The storage block of `server_init` once its bucket array and mutex are in place. */
    constructor (buckets: array<seq<Entry>>)
      requires buckets.Length == INITIAL_STORAGE_CAPACITY && AllBucketsEmpty(buckets)
      ensures this.buckets == buckets && Empty()
    {
      this.buckets := buckets;
      capacity := INITIAL_STORAGE_CAPACITY;
      size := INITIAL_STORAGE_SIZE;
      lockInitialized := true;
    }
  }

  class ServerInstance {
    var config: ServerConfig
    var status: ServerStatus
    var storage: Storage
    var serverFd: int
    var acceptorThread: nat
    var clients: array<ClientContext>
    var clientCount: uint32
    var clientsLockInitialized: bool
    var lastError: string
    var startTime: int

    /** A client table of `maxClients` zeroed slots, none in use, with its mutex ready. */
    predicate ClientsEmpty(maxClients: nat)
      reads this, clients
    {
      clients.Length == maxClients && AllClientsZero(clients) &&
      clientCount == INITIAL_CLIENT_COUNT && clientsLockInitialized
    }

    /** The state `server_init` leaves behind on success. */
    predicate Initialized(cfg: ServerConfig)
      reads this, storage, storage.buckets, clients
    {
      config == cfg && status == INITIAL_SERVER_STATUS &&
      storage.Empty() && ClientsEmpty(cfg.maxClients) &&
      serverFd == INITIAL_SERVER_FD && acceptorThread == INITIAL_THREAD_ID &&
      lastError == INITIAL_ERROR_MESSAGE && startTime == INITIAL_START_TIME
    }

    constructor (cfg: ServerConfig, storage: Storage, clients: array<ClientContext>)
      requires storage.Empty() && clients.Length == cfg.maxClients && AllClientsZero(clients)
      ensures this.storage == storage && this.clients == clients && Initialized(cfg)
    {
      config := cfg;
      status := INITIAL_SERVER_STATUS;
      this.storage := storage;
      serverFd := INITIAL_SERVER_FD;
      acceptorThread := INITIAL_THREAD_ID;
      this.clients := clients;
      clientCount := INITIAL_CLIENT_COUNT;
      clientsLockInitialized := true;
      lastError := INITIAL_ERROR_MESSAGE;
      startTime := INITIAL_START_TIME;
    }
  }

  /** Which of the six steps is the first to fail. */
  lemma AcquiredSteps(env: Environment)
    ensures Acquired(env, 0) ==
      if !env.serverAlloc then 0
      else if !env.storageAlloc then 1
      else if !env.bucketsAlloc then 2
      else if !env.storageLockInit then 3
      else if !env.clientsAlloc then 4
      else if !env.clientsLockInit then 5
      else 6
  {
  }

  /** The traces of the paths that fail at one of the first three steps. */
  lemma EarlyFailureTraces(cfg: ServerConfig, env: Environment)
    ensures !env.serverAlloc ==> InitTrace(Some(cfg), env) == []
    ensures env.serverAlloc && !env.storageAlloc ==>
      InitTrace(Some(cfg), env) == [Acquire(ServerBlock), Release(ServerBlock)]
    ensures env.serverAlloc && env.storageAlloc && !env.bucketsAlloc ==>
      InitTrace(Some(cfg), env) ==
        [Acquire(ServerBlock), Acquire(StorageBlock), Release(StorageBlock), Release(ServerBlock)]
  {
    AcquiredSteps(env);
    var k := Acquired(env, 0);
    AcquiresOnly(STEPS[..k]);
    ReleasesOnly(STEPS[..k]);
  }

  /** The traces of the paths that fail at one of the last three steps. */
  lemma LateFailureTraces(cfg: ServerConfig, env: Environment)
    requires env.serverAlloc && env.storageAlloc && env.bucketsAlloc
    ensures !env.storageLockInit ==>
      InitTrace(Some(cfg), env) ==
        [Acquire(ServerBlock), Acquire(StorageBlock), Acquire(BucketArray),
         Release(BucketArray), Release(StorageBlock), Release(ServerBlock)]
    ensures env.storageLockInit && !env.clientsAlloc ==>
      InitTrace(Some(cfg), env) ==
        [Acquire(ServerBlock), Acquire(StorageBlock), Acquire(BucketArray), Acquire(StorageLock),
         Release(StorageLock), Release(BucketArray), Release(StorageBlock), Release(ServerBlock)]
    ensures env.storageLockInit && env.clientsAlloc && !env.clientsLockInit ==>
      InitTrace(Some(cfg), env) ==
        [Acquire(ServerBlock), Acquire(StorageBlock), Acquire(BucketArray), Acquire(StorageLock),
         Acquire(ClientTable),
         Release(ClientTable), Release(StorageLock), Release(BucketArray), Release(StorageBlock), Release(ServerBlock)]
  {
    AcquiredSteps(env);
    var k := Acquired(env, 0);
    AcquiresOnly(STEPS[..k]);
    ReleasesOnly(STEPS[..k]);
  }

  /** The trace of the path on which every step succeeds. */
  lemma SuccessTrace(cfg: ServerConfig, env: Environment)
    requires env.serverAlloc && env.storageAlloc && env.bucketsAlloc && env.storageLockInit
    requires env.clientsAlloc && env.clientsLockInit
    ensures InitTrace(Some(cfg), env) ==
      [Acquire(ServerBlock), Acquire(StorageBlock), Acquire(BucketArray), Acquire(StorageLock),
       Acquire(ClientTable), Acquire(ClientsLock)]
  {
    AcquiredSteps(env);
    AcquiresOnly(STEPS);
  }

  /** `calloc` of n bucket heads: a fresh array of NULL heads. */
  method NewBuckets(n: nat) returns (b: array<seq<Entry>>)
    ensures fresh(b) && b.Length == n && AllBucketsEmpty(b)
  {
    b := new seq<Entry>[n](_ => []);
  }

  /** `calloc` of n client slots: a fresh array of all-zero slots. */
  method NewClients(n: nat) returns (c: array<ClientContext>)
    ensures fresh(c) && c.Length == n && AllClientsZero(c)
  {
    c := new ClientContext[n](_ => ZERO_CLIENT);
  }

  /** `server_init`. Each resource is recorded in the trace as it is acquired;
      on a failure the ones held are released, last first. The storage and
      instance objects are built once their parts exist; the trace records
      when their blocks were allocated. */
  method Init(config: Option<ServerConfig>, env: Environment) returns (server: ServerInstance?, trace: seq<ResourceEvent>)
    ensures trace == InitTrace(config, env)
    ensures server != null <==> config.Some? && Acquired(env, 0) == |STEPS|
    ensures server != null ==>
      fresh(server) && fresh(server.storage) && fresh(server.storage.buckets) && fresh(server.clients)
    ensures server != null ==> server.Initialized(config.value)
  {
    trace := [];
    server := null;
    if config.None? {
      return;
    }
    var cfg := config.value;
    AcquiredSteps(env);
    EarlyFailureTraces(cfg, env);
    if !env.serverAlloc {
      return;
    }
    trace := [Acquire(ServerBlock)];
    if !env.storageAlloc {
      trace := trace + [Release(ServerBlock)];
      return;
    }
    trace := [Acquire(ServerBlock), Acquire(StorageBlock)];
    if !env.bucketsAlloc {
      trace := trace + [Release(StorageBlock), Release(ServerBlock)];
      return;
    }
    LateFailureTraces(cfg, env);
    var buckets := NewBuckets(INITIAL_STORAGE_CAPACITY);
    trace := [Acquire(ServerBlock), Acquire(StorageBlock), Acquire(BucketArray)];
    if !env.storageLockInit {
      trace := trace + [Release(BucketArray), Release(StorageBlock), Release(ServerBlock)];
      return;
    }
    var storage := new Storage(buckets);
    trace := [Acquire(ServerBlock), Acquire(StorageBlock), Acquire(BucketArray), Acquire(StorageLock)];
    if !env.clientsAlloc {
      trace := trace + [Release(StorageLock), Release(BucketArray), Release(StorageBlock),
                        Release(ServerBlock)];
      return;
    }
    var clients := NewClients(cfg.maxClients);
    trace := [Acquire(ServerBlock), Acquire(StorageBlock), Acquire(BucketArray), Acquire(StorageLock),
              Acquire(ClientTable)];
    if !env.clientsLockInit {
      trace := trace + [Release(ClientTable), Release(StorageLock), Release(BucketArray),
                        Release(StorageBlock), Release(ServerBlock)];
      return;
    }
    SuccessTrace(cfg, env);
    trace := [Acquire(ServerBlock), Acquire(StorageBlock), Acquire(BucketArray), Acquire(StorageLock),
              Acquire(ClientTable), Acquire(ClientsLock)];
    server := new ServerInstance(cfg, storage, clients);
  }
}
