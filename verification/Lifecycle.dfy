/**
 The cluster lifecycle: what one call does to the persistent store, which driver operations it
 makes, and what it leaves in its handle.

 Everything a call does to the outside world is written down in a journal, one event per
 interaction.  The stored records are a function of the journal, and a process that stops
 between two interactions leaves a prefix of it.
 */
module Lifecycle {
  import opened Base
  import opened DriverOptions
  import opened OptionMaps

  /** The status strings of cluster.go; `Blank` is the empty string. */
  datatype Status = Blank | PreCreating | Creating | PostChecking | Running | Error | Updating | Init | Other(text: string)

  /** types.ClusterInfo as the cluster code uses it. */
  datatype Info = Info(
    clientCertificate: string, clientKey: string, rootCaCertificate: string,
    username: string, password: string, version: string, endpoint: string, nodeCount: int,
    metadata: map<string, string>, serviceAccountToken: string, status: Status)

  const NoInfo := Info("", "", "", "", "", "", "", 0, map[], "", Blank)

  /** A cluster: the value of a handle, and equally the record persisted for its name. */
  datatype Record = Record(name: string, driverName: string, info: Info)

  function WithStatus(c: Record, s: Status): (r: Record) {
    c.(info := c.info.(status := s))
  }

  datatype Failure =
    | ClusterExists
    | NotCreated
    | StoreFailure(notFound: bool)
    | ConfigFailure(reason: string)
    | DriverFailure(reason: string)

  /** A write may fail without effect, or take effect and still be reported as failed. */
  datatype WriteReply = Written | Lost | Unsure {
    predicate Applied() { !Lost? }
    function Failed(): (r: Option<Failure>) { if Written? then None else Some(StoreFailure(false)) }
  }

  /** How a read goes: whether a present record can be read, and whether the error of a read
      that fails is a Kubernetes "not found" error. */
  datatype ReadReply = ReadReply(readable: bool, notFound: bool)

  datatype CreateReply = CreateReply(info: Option<Info>, failure: Option<string>)

  /** The world around the cluster code.  The replies are functions of the moment (the number of
      interactions before this one) and of the request, so they may be anything at any time. */
  datatype Env = Env(
    write: nat -> WriteReply,
    read: nat -> ReadReply,
    config: nat -> Result<Options, string>,
    decode: (nat, string) -> Option<seq<Field>>,  // one visit of the saved state, if it parses
    show: Json -> string,
    create: (nat, Options, Option<Info>) -> CreateReply,
    update: (nat, Info, Options) -> Result<Info, string>,
    postCheck: (nat, Info) -> Result<Info, string>,
    etcdRestore: (nat, Info, Options, string) -> Result<Info, string>,
    remove: (nat, Info) -> Option<string>)

  datatype Event =
    | Read(name: string)
    | Configured(name: string)
    | StatusWritten(rec: Record, applied: bool)
    | Stored(rec: Record, applied: bool)
    | Erased(name: string, applied: bool)
    | CreateCalled(name: string, opts: Options, prior: Option<Info>, created: CreateReply)
    | UpdateCalled(name: string, opts: Options, info: Info, reply: Result<Info, string>)
    | PostCheckCalled(name: string, info: Info, reply: Result<Info, string>)
    | RestoreCalled(name: string, opts: Options, info: Info, snapshot: string, reply: Result<Info, string>)
    | RemoveCalled(name: string, info: Info, failure: Option<string>)

  type Journal = seq<Event>

  function Apply(records: map<string, Record>, e: Event): (r: map<string, Record>) {
    match e
    case StatusWritten(rec, true) => records[rec.name := rec]
    case Stored(rec, true) => records[rec.name := rec]
    case Erased(name, true) => records - {name}
    case _ => records
  }

  /** The persisted records, one per name. */
  function Records(j: Journal): (r: map<string, Record>) {
    if j == [] then map[] else Apply(Records(j[..|j| - 1]), j[|j| - 1])
  }

  function Log(j: Journal, e: Event): (r: Journal)
    ensures r == j + [e] && Records(r) == Apply(Records(j), e)
  {
    assert (j + [e])[..|j|] == j;
    j + [e]
  }

  /** The cluster an interaction is about. */
  function Subject(e: Event): (r: string) {
    match e
    case StatusWritten(rec, _) => rec.name
    case Stored(rec, _) => rec.name
    case _ => e.name
  }

  /** The journal only grows, and only by interactions about one cluster. */
  predicate Grown(j: Journal, k: Journal, name: string) {
    j <= k && forall i :: |j| <= i < |k| ==> Subject(k[i]) == name
  }

  /** What a call leaves: the journal, the handle, and the error it returns. */
  datatype Act = Act(journal: Journal, handle: Record, failure: Option<Failure>) {
    predicate Follows(j: Journal, name: string) {
      Grown(j, journal, name) && handle.name == name
    }
  }

  /** The store gets the cluster by value: the handle keeps its old status. */
  function PersistStatus(c: Record, s: Status, j: Journal, env: Env): (r: Act)
    ensures r.Follows(j, c.name)
  {
    var reply := env.write(|j|);
    Act(Log(j, StatusWritten(WithStatus(c, s), reply.Applied())), c, reply.Failed())
  }

  function Store(c: Record, j: Journal, env: Env): (r: Act)
    ensures r.Follows(j, c.name)
  {
    var reply := env.write(|j|);
    Act(Log(j, Stored(c, reply.Applied())), c, reply.Failed())
  }

  function Restore(c: Record, j: Journal, env: Env): (r: Act)
    ensures r.Follows(j, c.name)
  {
    var reply, records, j' := env.read(|j|), Records(j), Log(j, Read(c.name));
    if c.name in records && reply.readable then Act(j', c.(info := records[c.name].info), None)
    else Act(j', c, Some(StoreFailure(reply.notFound)))
  }

  function PostCheck(c: Record, j: Journal, env: Env): (r: Act)
    ensures r.Follows(j, c.name)
  {
    hide PersistStatus, CheckAndStore;
    var marked := PersistStatus(c, PostChecking, j, env);
    if marked.failure.Some? then marked else CheckAndStore(c, marked.journal, env)
  }

  function CheckAndStore(c: Record, j: Journal, env: Env): (r: Act)
    ensures r.Follows(j, c.name)
  {
    hide Store;
    var reply := env.postCheck(|j|, c.info);
    var j' := Log(j, PostCheckCalled(c.name, c.info, reply));
    if reply.Err? then Act(j', c, Some(DriverFailure(reply.error)))
    else Store(c.(info := reply.value), j', env)
  }

  /** Cluster.create, which returns at once after a stopped check. */
  function CreateWithDriver(c: Record, prior: Option<Info>, j: Journal, env: Env): (r: Act)
    ensures r.Follows(j, c.name)
  {
    hide CreateSteps;
    if c.info.status.PostChecking? then Act(j, c, None) else CreateSteps(c, prior, j, env)
  }

  function CreateSteps(c: Record, prior: Option<Info>, j: Journal, env: Env): (r: Act)
    ensures r.Follows(j, c.name)
  {
    hide PersistStatus, CallCreate, CreateOptions;
    var pre := PersistStatus(c, PreCreating, j, env);
    if pre.failure.Some? then pre
    else
      var config, j1 := env.config(|pre.journal|), Log(pre.journal, Configured(c.name));
      if config.Err? then Act(j1, c, Some(ConfigFailure(config.error)))
      else
        var mid := PersistStatus(c, Creating, j1, env);
        if mid.failure.Some? then mid
        else CallCreate(c, CreateOptions(config.value, c.info.metadata), prior, mid.journal, env)
  }

  function CallCreate(c: Record, opts: Options, prior: Option<Info>, j: Journal, env: Env): (r: Act)
    ensures r.Follows(j, c.name)
  {
    var reply := env.create(|j|, opts, prior);
    Act(Log(j, CreateCalled(c.name, opts, prior, reply)),
        if reply.info.Some? then c.(info := reply.info.value) else c,
        if reply.failure.Some? then Some(DriverFailure(reply.failure.value)) else None)
  }

  /** A status that means the cluster is there. */
  predicate Settled(s: Status) {
    s.Updating? || s.Running? || s.PostChecking? || s.Init?
  }

  /** Cluster.createInner: a failed read of the record is ignored. */
  function CreateInner(c: Record, j: Journal, env: Env): (r: Act)
    ensures r.Follows(j, c.name)
  {
    hide Restore, CreateWithDriver, PostCheck;
    var restored := Restore(c, j, env);
    var c1 := restored.handle;
    if Settled(c1.info.status) then Act(restored.journal, c1, Some(ClusterExists))
    else
      var prior := if c1.info.status.Error? then Some(c1.info) else None;
      var created := CreateWithDriver(c1, prior, restored.journal, env);
      if created.failure.Some? then created else PostCheck(created.handle, created.journal, env)
  }

  predicate Interrupted(c: Record) {
    c.info.rootCaCertificate != "" && c.info.status.Blank?
  }

  function Create(c: Record, j: Journal, env: Env): (r: Act)
    ensures r.Follows(j, c.name)
  {
    hide PersistStatus, CreateInner;
    var j0 := if Interrupted(c) then PersistStatus(c, Init, j, env).journal else j;
    var inner := CreateInner(c, j0, env);
    if inner.failure.Some? then
      var last := if inner.failure.value.ClusterExists? then Status.Running else Status.Error;
      Act(PersistStatus(inner.handle, last, inner.journal, env).journal, inner.handle, inner.failure)
    else PersistStatus(inner.handle, Status.Running, inner.journal, env)
  }

  /** One visit of the saved state, when the metadata holds one that parses. */
  function SavedState(metadata: map<string, string>, now: nat, env: Env): (r: Option<seq<Field>>) {
    if STATE in metadata then env.decode(now, metadata[STATE]) else None
  }

  function DriverOptionsOf(c: Record, config: Options, now: nat, env: Env): (r: Options) {
    UpdateOptions(Style(TAGS, env.show), config, c.name, c.info.metadata, SavedState(c.info.metadata, now, env))
  }

  function Update(c: Record, j: Journal, env: Env): (r: Act)
    ensures r.Follows(j, c.name)
  {
    hide Restore, Create, PersistStatus, UpdateWithDriver, DriverOptionsOf;
    var restored := Restore(c, j, env);
    var c1 := restored.handle;
    if restored.failure.Some? then restored
    else if c1.info.status.Error? then Create(c1, restored.journal, env)
    else if c1.info.status.PreCreating? || c1.info.status.Creating? then restored.(failure := Some(NotCreated))
    else
      var now := |restored.journal|;
      var config, j1 := env.config(now), Log(restored.journal, Configured(c.name));
      if config.Err? then Act(j1, c1, Some(ConfigFailure(config.error)))
      else
        var opts := DriverOptionsOf(c1, config.value, now, env);
        var marked := PersistStatus(c1, Updating, j1, env);
        if marked.failure.Some? then marked else UpdateWithDriver(c1, opts, marked.journal, env)
  }

  function UpdateWithDriver(c: Record, opts: Options, j: Journal, env: Env): (r: Act)
    ensures r.Follows(j, c.name)
  {
    hide PostCheck;
    var reply := env.update(|j|, c.info, opts);
    var j' := Log(j, UpdateCalled(c.name, opts, c.info, reply));
    if reply.Err? then Act(j', c, Some(DriverFailure(reply.error)))
    else PostCheck(c.(info := reply.value), j', env)
  }

  function GenerateServiceAccount(c: Record, j: Journal, env: Env): (r: Act)
    ensures r.Follows(j, c.name)
  {
    hide Restore, PersistStatus, CheckAndStore;
    var restored := Restore(c, j, env);
    if restored.failure.Some? then restored
    else
      var marked := PersistStatus(restored.handle, Updating, restored.journal, env);
      if marked.failure.Some? then marked else CheckAndStore(restored.handle, marked.journal, env)
  }

  function EtcdRestore(c: Record, snapshot: string, j: Journal, env: Env): (r: Act)
    ensures r.Follows(j, c.name)
  {
    hide Restore, PersistStatus, RestoreWithDriver, DriverOptionsOf;
    var restored := Restore(c, j, env);
    var c1 := restored.handle;
    if restored.failure.Some? then restored
    else
      var now := |restored.journal|;
      var config, j1 := env.config(now), Log(restored.journal, Configured(c.name));
      if config.Err? then Act(j1, c1, Some(ConfigFailure(config.error)))
      else
        var opts := DriverOptionsOf(c1, config.value, now, env);
        var marked := PersistStatus(c1, Updating, j1, env);
        if marked.failure.Some? then marked else RestoreWithDriver(c1, opts, snapshot, marked.journal, env)
  }

  function RestoreWithDriver(c: Record, opts: Options, snapshot: string, j: Journal, env: Env): (r: Act)
    ensures r.Follows(j, c.name)
  {
    hide PostCheck;
    var reply := env.etcdRestore(|j|, c.info, opts, snapshot);
    var j' := Log(j, RestoreCalled(c.name, opts, c.info, snapshot, reply));
    if reply.Err? then Act(j', c, Some(DriverFailure(reply.error)))
    else PostCheck(c.(info := reply.value), j', env)
  }

  function Remove(c: Record, force: bool, j: Journal, env: Env): (r: Act)
    ensures r.Follows(j, c.name)
  {
    hide Restore, Erase;
    var restored := Restore(c, j, env);
    if restored.failure.Some? then
      if restored.failure.value.StoreFailure? && restored.failure.value.notFound
      then restored.(failure := None) else restored
    else
      var failure := env.remove(|restored.journal|, restored.handle.info);
      var j' := Log(restored.journal, RemoveCalled(c.name, restored.handle.info, failure));
      if failure.Some? && !force then Act(j', restored.handle, Some(DriverFailure(failure.value)))
      else Erase(restored.handle, j', env)
  }

  function Erase(c: Record, j: Journal, env: Env): (r: Act)
    ensures r.Follows(j, c.name)
  {
    var reply := env.write(|j|);
    Act(Log(j, Erased(c.name, reply.Applied())), c, reply.Failed())
  }

  /** A call of one operation on a handle. */
  datatype Call =
    | CreateCall(handle: Record)
    | UpdateCall(handle: Record)
    | GenerateCall(handle: Record)
    | EtcdRestoreCall(handle: Record, snapshot: string)
    | RemoveCall(handle: Record, force: bool)

  function Perform(call: Call, j: Journal, env: Env): (r: Act) {
    match call
    case CreateCall(c) => Create(c, j, env)
    case UpdateCall(c) => Update(c, j, env)
    case GenerateCall(c) => GenerateServiceAccount(c, j, env)
    case EtcdRestoreCall(c, snapshot) => EtcdRestore(c, snapshot, j, env)
    case RemoveCall(c, force) => Remove(c, force, j, env)
  }
}
