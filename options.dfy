/** The construction options of the bus (`Option`, `With*` and `genOpts` in
    bus.go): each setting overwrites one component; components left unset,
    or set to nil, are filled with their defaults. */
module Options {
  import opened Events

  /** `defaultPoolSize` of executor.go. */
  const DefaultPoolSize: int := 5

  /** A worker pool: the default pooled executor of a given size, or one
      supplied by the caller (identified by an opaque reference). */
  datatype ExecutorImpl = PooledExecutor(size: int) | CustomExecutor(ref: nat)

  /** A staging store: the default in-memory store, or a caller's own. */
  datatype StorageImpl = MemStore | CustomStorage(ref: nat)

  /** A dispatch queue: the default FIFO scheduler, or a caller's own. */
  datatype SchedulerImpl = QueueScheduler | CustomScheduler(ref: nat)

  /** One `Option` closure. The carried value is `None` when the caller
      passed a nil interface, which Go stores as nil like any other value. */
  datatype Setting =
    | WithExecutor(executor: Option<ExecutorImpl>)
    | WithStorage(storage: Option<StorageImpl>)
    | WithScheduler(scheduler: Option<SchedulerImpl>)
  {
    function Kind(): Component {
      match this
      case WithExecutor(_) => ExecutorComponent
      case WithStorage(_) => StorageComponent
      case WithScheduler(_) => SchedulerComponent
    }
  }

  datatype Component = ExecutorComponent | StorageComponent | SchedulerComponent

  /** The `option` struct after `genOpts`: no component is nil. */
  datatype Config = Config(executor: ExecutorImpl, storage: StorageImpl, scheduler: SchedulerImpl)

  /** No setting in `opts` touches component `k`. */
  predicate Unset(opts: seq<Setting>, k: Component) {
    forall i | 0 <= i < |opts| :: opts[i].Kind() != k
  }

  /** `opts[i]` is the last setting of its component. */
  predicate LastOfKind(opts: seq<Setting>, i: int)
    requires 0 <= i < |opts|
  {
    forall j | i < j < |opts| :: opts[j].Kind() != opts[i].Kind()
  }

  /** What setting `s` leaves in `c` once defaults are filled in: its value,
      or the default when it carried nil. */
  predicate Applied(c: Config, s: Setting) {
    match s
    case WithExecutor(e) => c.executor == (if e.Some? then e.value else PooledExecutor(DefaultPoolSize))
    case WithStorage(st) => c.storage == (if st.Some? then st.value else MemStore)
    case WithScheduler(sc) => c.scheduler == (if sc.Some? then sc.value else QueueScheduler)
  }

  /** The partially filled struct before defaults: each field holds what
      the last setting of its kind wrote. */
  predicate Written(e: Option<ExecutorImpl>, st: Option<StorageImpl>, sc: Option<SchedulerImpl>, s: Setting) {
    match s
    case WithExecutor(x) => e == x
    case WithStorage(x) => st == x
    case WithScheduler(x) => sc == x
  }

  /** `genOpts`: applies the settings in order, then fills every component
      that is still nil with its default. */
  method GenOpts(opts: seq<Setting>) returns (c: Config)
    ensures Unset(opts, ExecutorComponent) ==> c.executor == PooledExecutor(DefaultPoolSize)
    ensures Unset(opts, StorageComponent) ==> c.storage == MemStore
    ensures Unset(opts, SchedulerComponent) ==> c.scheduler == QueueScheduler
    ensures forall i | 0 <= i < |opts| && LastOfKind(opts, i) :: Applied(c, opts[i])
  {
    var executor: Option<ExecutorImpl> := None;
    var storage: Option<StorageImpl> := None;
    var scheduler: Option<SchedulerImpl> := None;
    for i := 0 to |opts|
      invariant Unset(opts[..i], ExecutorComponent) ==> executor == None
      invariant Unset(opts[..i], StorageComponent) ==> storage == None
      invariant Unset(opts[..i], SchedulerComponent) ==> scheduler == None
      invariant forall j | 0 <= j < i && LastOfKind(opts[..i], j) :: Written(executor, storage, scheduler, opts[j])
    {
      match opts[i]
      case WithExecutor(x) => executor := x;
      case WithStorage(x) => storage := x;
      case WithScheduler(x) => scheduler := x;
      assert opts[..i + 1] == opts[..i] + [opts[i]];
    }
    assert opts[..|opts|] == opts;
    c := Config(
      if executor.Some? then executor.value else PooledExecutor(DefaultPoolSize),
      if storage.Some? then storage.value else MemStore,
      if scheduler.Some? then scheduler.value else QueueScheduler);
  }
}
