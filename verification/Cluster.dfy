/**
 The cluster handle as an object whose methods rewrite its fields, and the store, configuration
 getter and driver it works with.  Each method does what its counterpart in module Lifecycle says.
 */
module Cluster {
  import opened Base
  import opened DriverOptions
  import opened OptionMaps
  import L = Lifecycle

  /** The persistent store, the configuration getter and the driver client of one process. */
  class Backend {
    const env: L.Env
    var records: map<string, L.Record>
    var journal: L.Journal

    ghost predicate Valid()
      reads this
    {
      records == L.Records(journal)
    }

    constructor (env: L.Env)
      ensures Valid() && this.env == env && journal == []
    {
      this.env, records, journal := env, map[], [];
    }

    method Note(e: L.Event)
      requires Valid()
      modifies this
      ensures Valid() && journal == L.Log(old(journal), e)
    {
      records := L.Apply(records, e);
      journal := L.Log(journal, e);
    }

    /** Takes the cluster by value. */
    method PersistStatus(c: L.Record, s: L.Status) returns (failure: Option<L.Failure>)
      requires Valid()
      modifies this
      ensures Valid()
      ensures L.Act(journal, c, failure) == L.PersistStatus(c, s, old(journal), env)
    {
      var reply := env.write(|journal|);
      var written := c;
      written := written.(info := written.info.(status := s));
      Note(L.StatusWritten(written, reply.Applied()));
      failure := reply.Failed();
    }

    method Store(c: L.Record) returns (failure: Option<L.Failure>)
      requires Valid()
      modifies this
      ensures Valid()
      ensures L.Act(journal, c, failure) == L.Store(c, old(journal), env)
    {
      var reply := env.write(|journal|);
      Note(L.Stored(c, reply.Applied()));
      failure := reply.Failed();
    }

    method Get(name: string) returns (r: Result<L.Record, L.Failure>)
      requires Valid()
      modifies this
      ensures Valid() && journal == L.Log(old(journal), L.Read(name))
      ensures r == if name in old(records) && env.read(|old(journal)|).readable then Ok(old(records)[name])
                   else Err(L.StoreFailure(env.read(|old(journal)|).notFound))
    {
      var reply := env.read(|journal|);
      if name in records && reply.readable {
        r := Ok(records[name]);
      } else {
        r := Err(L.StoreFailure(reply.notFound));
      }
      Note(L.Read(name));
    }

    method Remove(name: string) returns (failure: Option<L.Failure>)
      requires Valid()
      modifies this
      ensures Valid()
      ensures journal == L.Log(old(journal), L.Erased(name, env.write(|old(journal)|).Applied()))
      ensures failure == env.write(|old(journal)|).Failed()
    {
      var reply := env.write(|journal|);
      Note(L.Erased(name, reply.Applied()));
      failure := reply.Failed();
    }

    method GetConfig(name: string) returns (r: Result<OptionMaps, string>)
      requires Valid()
      modifies this
      ensures Valid() && journal == L.Log(old(journal), L.Configured(name))
      ensures r.Err? <==> env.config(|old(journal)|).Err?
      ensures r.Err? ==> r.error == env.config(|old(journal)|).error
      ensures r.Ok? ==> fresh(r.value) && r.value.Value() == env.config(|old(journal)|).value
    {
      var reply := env.config(|journal|);
      Note(L.Configured(name));
      match reply
      case Err(e) => r := Err(e);
      case Ok(o) =>
        var options := new OptionMaps(o);
        r := Ok(options);
    }
  }

  class Cluster {
    const backend: Backend
    const driverName: string
    const name: string

    var status: L.Status
    var version: string
    var serviceAccountToken: string
    var endpoint: string
    var username: string
    var password: string
    var rootCACert: string
    var clientCertificate: string
    var clientKey: string
    var nodeCount: int
    var metadata: map<string, string>

    /** cluster.toInfo */
    function ToInfo(): (r: L.Info)
      reads this
    {
      L.Info(clientCertificate, clientKey, rootCACert, username, password, version, endpoint, nodeCount,
             metadata, serviceAccountToken, status)
    }

    /** The cluster passed by value. */
    function Value(): (r: L.Record)
      reads this
    {
      L.Record(name, driverName, ToInfo())
    }

    ghost predicate Valid()
      reads this, backend
    {
      backend.Valid()
    }

    /** The outcome of a method is what the lifecycle says. */
    ghost predicate Did(act: L.Act, failure: Option<L.Failure>)
      reads this, backend
    {
      Valid() && L.Act(backend.journal, Value(), failure) == act
    }

    constructor (driverName: string, name: string, backend: Backend)
      ensures Value() == L.Record(name, driverName, L.NoInfo) && this.backend == backend
    {
      this.driverName, this.name, this.backend := driverName, name, backend;
      status, version, serviceAccountToken, endpoint, username := L.Blank, "", "", "", "";
      password, rootCACert, clientCertificate, clientKey, nodeCount, metadata := "", "", "", "", 0, map[];
    }

    /** cluster.transformClusterInfo */
    method TransformClusterInfo(info: L.Info)
      modifies this
      ensures ToInfo() == info
    {
      clientCertificate := info.clientCertificate;
      clientKey := info.clientKey;
      rootCACert := info.rootCaCertificate;
      username := info.username;
      password := info.password;
      version := info.version;
      endpoint := info.endpoint;
      nodeCount := info.nodeCount;
      metadata := info.metadata;
      serviceAccountToken := info.serviceAccountToken;
      status := info.status;
    }

    method Restore() returns (failure: Option<L.Failure>)
      requires Valid()
      modifies this, backend
      ensures Did(old(L.Restore(Value(), backend.journal, backend.env)), failure)
    {
      var got := backend.Get(name);
      match got
      case Err(e) => failure := Some(e);
      case Ok(stored) =>
        TransformClusterInfo(stored.info);
        failure := None;
    }

    method Create() returns (failure: Option<L.Failure>)
      requires Valid()
      modifies this, backend
      ensures Did(old(L.Create(Value(), backend.journal, backend.env)), failure)
    {
      hide L.CreateInner, L.Records, L.Apply;
      if rootCACert != "" && status == L.Blank {
        var _ := backend.PersistStatus(Value(), L.Init);
      }
      failure := CreateInner();
      if failure.Some? {
        if failure == Some(L.ClusterExists) {
          var _ := backend.PersistStatus(Value(), L.Running);
        } else {
          var _ := backend.PersistStatus(Value(), L.Error);
        }
        return;
      }
      failure := backend.PersistStatus(Value(), L.Running);
    }

    method CreateInner() returns (failure: Option<L.Failure>)
      requires Valid()
      modifies this, backend
      ensures Did(old(L.CreateInner(Value(), backend.journal, backend.env)), failure)
    {
      hide L.CreateWithDriver, L.PostCheck, L.Records, L.Apply;
      var _ := Restore();
      var prior: Option<L.Info> := None;
      if status == L.Error {
        prior := Some(ToInfo());
      }
      if status == L.Updating || status == L.Running || status == L.PostChecking || status == L.Init {
        return Some(L.ClusterExists);
      }
      failure := CreateWithDriver(prior);
      if failure.Some? {
        return;
      }
      failure := PostCheck();
    }

    method CreateWithDriver(prior: Option<L.Info>) returns (failure: Option<L.Failure>)
      requires Valid()
      modifies this, backend
      ensures Did(old(L.CreateWithDriver(Value(), prior, backend.journal, backend.env)), failure)
    {
      hide L.Records, L.Apply, CreateOptions;
      if status == L.PostChecking {
        return None;
      }
      failure := backend.PersistStatus(Value(), L.PreCreating);
      if failure.Some? {
        return;
      }
      var config := backend.GetConfig(name);
      if config.Err? {
        return Some(L.ConfigFailure(config.error));
      }
      var driverOpts := config.value;
      driverOpts.OverlayMetadata(metadata);
      failure := backend.PersistStatus(Value(), L.Creating);
      if failure.Some? {
        return;
      }
      var reply := backend.env.create(|backend.journal|, driverOpts.Value(), prior);
      backend.Note(L.CreateCalled(name, driverOpts.Value(), prior, reply));
      if reply.info.Some? {
        TransformClusterInfo(reply.info.value);
      }
      failure := if reply.failure.Some? then Some(L.DriverFailure(reply.failure.value)) else None;
    }

    method PostCheck() returns (failure: Option<L.Failure>)
      requires Valid()
      modifies this, backend
      ensures Did(old(L.PostCheck(Value(), backend.journal, backend.env)), failure)
    {
      failure := backend.PersistStatus(Value(), L.PostChecking);
      if failure.Some? {
        return;
      }
      failure := CheckAndStore();
    }

    /** The common end of PostCheck and GenerateServiceAccount. */
    method CheckAndStore() returns (failure: Option<L.Failure>)
      requires Valid()
      modifies this, backend
      ensures Did(old(L.CheckAndStore(Value(), backend.journal, backend.env)), failure)
    {
      var reply := backend.env.postCheck(|backend.journal|, ToInfo());
      backend.Note(L.PostCheckCalled(name, ToInfo(), reply));
      if reply.Err? {
        return Some(L.DriverFailure(reply.error));
      }
      TransformClusterInfo(reply.value);
      failure := backend.Store(Value());
    }

    method GenerateServiceAccount() returns (failure: Option<L.Failure>)
      requires Valid()
      modifies this, backend
      ensures Did(old(L.GenerateServiceAccount(Value(), backend.journal, backend.env)), failure)
    {
      failure := Restore();
      if failure.Some? {
        return;
      }
      failure := backend.PersistStatus(Value(), L.Updating);
      if failure.Some? {
        return;
      }
      failure := CheckAndStore();
    }

    /** The option building shared by Update and getDriverOps. */
    method DriverOptions() returns (r: Result<OptionMaps, L.Failure>)
      requires Valid()
      modifies backend
      ensures Valid() && backend.journal == L.Log(old(backend.journal), L.Configured(name))
      ensures var now := |old(backend.journal)|; var config := backend.env.config(now);
              && (r.Err? <==> config.Err?)
              && (r.Err? ==> r.error == L.ConfigFailure(config.error))
              && (r.Ok? ==> fresh(r.value) && r.value.Value() == L.DriverOptionsOf(Value(), config.value, now, backend.env))
    {
      var now := |backend.journal|;
      var config := backend.GetConfig(name);
      if config.Err? {
        return Err(L.ConfigFailure(config.error));
      }
      var driverOpts := config.value;
      driverOpts.strings := driverOpts.strings[NAME := name];
      driverOpts.MergeMetadata(Style(TAGS, backend.env.show), metadata, L.SavedState(metadata, now, backend.env));
      return Ok(driverOpts);
    }

    method Update() returns (failure: Option<L.Failure>)
      requires Valid()
      modifies this, backend
      ensures Did(old(L.Update(Value(), backend.journal, backend.env)), failure)
    {
      hide L.Create, L.PostCheck, L.DriverOptionsOf;
      failure := Restore();
      if failure.Some? {
        return;
      }
      if status == L.Error {
        failure := Create();
        return;
      }
      if status == L.PreCreating || status == L.Creating {
        return Some(L.NotCreated);
      }
      var options := DriverOptions();
      if options.Err? {
        return Some(options.error);
      }
      var driverOpts := options.value.Value();
      failure := backend.PersistStatus(Value(), L.Updating);
      if failure.Some? {
        return;
      }
      var reply := backend.env.update(|backend.journal|, ToInfo(), driverOpts);
      backend.Note(L.UpdateCalled(name, driverOpts, ToInfo(), reply));
      if reply.Err? {
        return Some(L.DriverFailure(reply.error));
      }
      TransformClusterInfo(reply.value);
      failure := PostCheck();
    }

    method ETCDRestore(snapshot: string) returns (failure: Option<L.Failure>)
      requires Valid()
      modifies this, backend
      ensures Did(old(L.EtcdRestore(Value(), snapshot, backend.journal, backend.env)), failure)
    {
      hide L.PostCheck, L.DriverOptionsOf;
      failure := Restore();
      if failure.Some? {
        return;
      }
      var options := DriverOptions();
      if options.Err? {
        return Some(options.error);
      }
      var driverOpts := options.value.Value();
      failure := backend.PersistStatus(Value(), L.Updating);
      if failure.Some? {
        return;
      }
      var reply := backend.env.etcdRestore(|backend.journal|, ToInfo(), driverOpts, snapshot);
      backend.Note(L.RestoreCalled(name, driverOpts, ToInfo(), snapshot, reply));
      if reply.Err? {
        return Some(L.DriverFailure(reply.error));
      }
      TransformClusterInfo(reply.value);
      failure := PostCheck();
    }

    method Remove(forceRemove: bool) returns (failure: Option<L.Failure>)
      requires Valid()
      modifies this, backend
      ensures Did(old(L.Remove(Value(), forceRemove, backend.journal, backend.env)), failure)
    {
      failure := Restore();
      if failure == Some(L.StoreFailure(true)) {
        return None;
      }
      if failure.Some? {
        return;
      }
      var refused := backend.env.remove(|backend.journal|, ToInfo());
      backend.Note(L.RemoveCalled(name, ToInfo(), refused));
      if refused.Some? && !forceRemove {
        return Some(L.DriverFailure(refused.value));
      }
      failure := backend.Remove(name);
    }
  }
}
