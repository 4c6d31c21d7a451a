/**
 The order of the writes of the lifecycle: a cluster is only ever stored whole where a record of
 it is already there.  The on-disk store relies on this (module CliStore).
 */
module StoreDiscipline {
  import opened Base
  import opened DriverOptions
  import opened OptionMaps
  import opened Lifecycle
  import opened Runs

  /** Whenever a cluster is stored whole, its record is present. */
  ghost predicate Disciplined(j: Journal) {
    forall i :: 0 <= i < |j| && j[i].Stored? ==> j[i].rec.name in Records(j[..i])
  }

  lemma {:induction false} NothingStored(j: Journal, k: Journal)
    requires Disciplined(j) && j <= k && forall i :: |j| <= i < |k| ==> !k[i].Stored?
    ensures Disciplined(k)
  {
    forall i | 0 <= i < |k| && k[i].Stored? ensures k[i].rec.name in Records(k[..i]) {
      assert k[..i] == j[..i];
    }
  }

  lemma StoredOnce(j: Journal, k: Journal)
    requires Disciplined(j) && j <= k && |k| == |j| + 1
    requires k[|j|].Stored? ==> k[|j|].rec.name in Records(j)
    ensures Disciplined(k)
  {
    forall i | 0 <= i < |k| && k[i].Stored? ensures k[i].rec.name in Records(k[..i]) {
      assert k[..i] == j[..i];
      assert j[..|j|] == j;
    }
  }

  lemma CheckDisciplined(c: Record, j: Journal, env: Env)
    requires Disciplined(j) && c.name in Records(j)
    ensures Disciplined(CheckAndStore(c, j, env).journal)
  {
    var reply := env.postCheck(|j|, c.info);
    var checked := Log(j, PostCheckCalled(c.name, c.info, reply));
    NothingStored(j, checked);
    if reply.Ok? {
      StoredOnce(checked, CheckAndStore(c, j, env).journal);
    }
  }

  lemma PostCheckDisciplined(c: Record, j: Journal, env: Env)
    requires Disciplined(j)
    ensures Disciplined(PostCheck(c, j, env).journal)
  {
    hide CheckAndStore;
    var marked := PersistStatus(c, PostChecking, j, env);
    NothingStored(j, marked.journal);
    if marked.failure.None? {
      CheckDisciplined(c, marked.journal, env);
    }
  }

  lemma CreateWithDriverDisciplined(c: Record, prior: Option<Info>, j: Journal, env: Env)
    requires Disciplined(j)
    ensures Disciplined(CreateWithDriver(c, prior, j, env).journal)
  {
    NothingStored(j, CreateWithDriver(c, prior, j, env).journal);
  }

  lemma CreateInnerDisciplined(c: Record, j: Journal, env: Env)
    requires Disciplined(j)
    ensures Disciplined(CreateInner(c, j, env).journal)
  {
    hide PostCheck, CreateWithDriver;
    var restored := Restore(c, j, env);
    var c1 := restored.handle;
    NothingStored(j, restored.journal);
    if !Settled(c1.info.status) {
      var prior := if c1.info.status.Error? then Some(c1.info) else None;
      CreateWithDriverDisciplined(c1, prior, restored.journal, env);
      var created := CreateWithDriver(c1, prior, restored.journal, env);
      PostCheckDisciplined(created.handle, created.journal, env);
    }
  }

  lemma CreateDisciplined(c: Record, j: Journal, env: Env)
    requires Disciplined(j)
    ensures Disciplined(Create(c, j, env).journal)
  {
    hide CreateInner;
    var j0 := if Interrupted(c) then PersistStatus(c, Init, j, env).journal else j;
    NothingStored(j, j0);
    CreateInnerDisciplined(c, j0, env);
    NothingStored(CreateInner(c, j0, env).journal, Create(c, j, env).journal);
  }

  lemma WithDriverDisciplined(c: Record, opts: Options, snapshot: string, j: Journal, env: Env)
    requires Disciplined(j)
    ensures Disciplined(UpdateWithDriver(c, opts, j, env).journal)
    ensures Disciplined(RestoreWithDriver(c, opts, snapshot, j, env).journal)
  {
    hide PostCheck;
    var updated, rewound := env.update(|j|, c.info, opts), env.etcdRestore(|j|, c.info, opts, snapshot);
    var j1, j2 := Log(j, UpdateCalled(c.name, opts, c.info, updated)), Log(j, RestoreCalled(c.name, opts, c.info, snapshot, rewound));
    NothingStored(j, j1);
    NothingStored(j, j2);
    if updated.Ok? {
      PostCheckDisciplined(c.(info := updated.value), j1, env);
    }
    if rewound.Ok? {
      PostCheckDisciplined(c.(info := rewound.value), j2, env);
    }
  }

  lemma UpdateDisciplined(c: Record, j: Journal, env: Env)
    requires Disciplined(j)
    ensures Disciplined(Update(c, j, env).journal)
  {
    hide Disciplined, Create, UpdateWithDriver, RestoreWithDriver, DriverOptionsOf;
    var restored := Restore(c, j, env);
    var c1, now := restored.handle, |restored.journal|;
    var config, j1 := env.config(now), Log(restored.journal, Configured(c.name));
    NothingStored(j, restored.journal);
    NothingStored(j, j1);
    if c1.info.status.Error? {
      CreateDisciplined(c1, restored.journal, env);
    } else if config.Ok? {
      var marked := PersistStatus(c1, Updating, j1, env);
      NothingStored(j, marked.journal);
      WithDriverDisciplined(c1, DriverOptionsOf(c1, config.value, now, env), "", marked.journal, env);
    }
  }

  lemma EtcdRestoreDisciplined(c: Record, snapshot: string, j: Journal, env: Env)
    requires Disciplined(j)
    ensures Disciplined(EtcdRestore(c, snapshot, j, env).journal)
  {
    hide Disciplined, UpdateWithDriver, RestoreWithDriver, DriverOptionsOf;
    var restored := Restore(c, j, env);
    var c1, now := restored.handle, |restored.journal|;
    var config, j1 := env.config(now), Log(restored.journal, Configured(c.name));
    NothingStored(j, restored.journal);
    NothingStored(j, j1);
    if config.Ok? {
      var marked := PersistStatus(c1, Updating, j1, env);
      NothingStored(j, marked.journal);
      WithDriverDisciplined(c1, DriverOptionsOf(c1, config.value, now, env), snapshot, marked.journal, env);
    }
  }

  lemma GenerateDisciplined(c: Record, j: Journal, env: Env)
    requires Disciplined(j)
    ensures Disciplined(GenerateServiceAccount(c, j, env).journal)
  {
    hide Disciplined, CheckAndStore;
    var restored := Restore(c, j, env);
    NothingStored(j, restored.journal);
    if restored.failure.None? {
      var marked := PersistStatus(restored.handle, Updating, restored.journal, env);
      NothingStored(j, marked.journal);
      if marked.failure.None? {
        CheckDisciplined(restored.handle, marked.journal, env);
      }
    }
  }

  lemma PerformDisciplined(call: Call, j: Journal, env: Env)
    requires Disciplined(j)
    ensures Disciplined(Perform(call, j, env).journal)
  {
    hide Disciplined, Create, Update, EtcdRestore, GenerateServiceAccount;
    match call
    case CreateCall(c) => CreateDisciplined(c, j, env);
    case UpdateCall(c) => UpdateDisciplined(c, j, env);
    case GenerateCall(c) => GenerateDisciplined(c, j, env);
    case EtcdRestoreCall(c, snapshot) => EtcdRestoreDisciplined(c, snapshot, j, env);
    case RemoveCall(_, _) => NothingStored(j, Perform(call, j, env).journal);
  }

  lemma Cut(j: Journal, k: Journal)
    requires Disciplined(k) && j <= k
    ensures Disciplined(j)
  {
    forall i | 0 <= i < |j| && j[i].Stored? ensures j[i].rec.name in Records(j[..i]) {
      assert j[..i] == k[..i];
    }
  }

  /** In every run, cut short anywhere, a cluster is stored whole only where its record is present. */
  lemma {:induction false} RunDisciplined(ts: seq<Task>, j: Journal, env: Env)
    requires Disciplined(j)
    ensures Disciplined(Run(ts, j, env))
    decreases |ts|
  {
    if ts != [] {
      PerformDisciplined(ts[0].call, j, env);
      Cut(After(ts[0], j, env), Perform(ts[0].call, j, env).journal);
      RunDisciplined(ts[1..], After(ts[0], j, env), env);
    }
  }
}
