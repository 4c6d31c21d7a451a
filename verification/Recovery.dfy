/**
 What a create leaves behind, in success, in failure and when it is cut short, and what the next
 call makes of it.
 */
module Recovery {
  import opened Base
  import opened DriverOptions
  import opened OptionMaps
  import opened Lifecycle
  import opened Runs
  import opened Attempts

  /** The last successful reply of Driver.PostCheck for the cluster. */
  function LastCheck(j: Journal, n: string): (r: Option<Info>) {
    if j == [] then None
    else
      match j[|j| - 1]
      case PostCheckCalled(m, _, Ok(info)) => if m == n then Some(info) else LastCheck(j[..|j| - 1], n)
      case _ => LastCheck(j[..|j| - 1], n)
  }

  lemma Logged(j: Journal, e: Event, n: string)
    ensures LastCheck(Log(j, e), n) ==
            if e.PostCheckCalled? && e.name == n && e.reply.Ok? then Some(e.reply.value) else LastCheck(j, n)
  {
    assert (j + [e])[..|j|] == j;
  }

  /** How a successful check ends: the reply has been stored, whole. */
  ghost predicate EndsWithStored(k: Journal, n: string, driverName: string) {
    && LastCheck(k, n).Some?
    && n in Records(k)
    && Records(k)[n] == Record(n, driverName, LastCheck(k, n).value)
  }

  lemma CheckStores(c: Record, j: Journal, env: Env)
    ensures CheckAndStore(c, j, env).failure.None? ==> EndsWithStored(CheckAndStore(c, j, env).journal, c.name, c.driverName)
    ensures CheckAndStore(c, j, env).failure.None? ==>
              CheckAndStore(c, j, env).handle == Records(CheckAndStore(c, j, env).journal)[c.name]
  {
    var reply := env.postCheck(|j|, c.info);
    var e := PostCheckCalled(c.name, c.info, reply);
    Logged(j, e, c.name);
    if reply.Ok? {
      Logged(Log(j, e), Stored(c.(info := reply.value), env.write(|j| + 1).Applied()), c.name);
    }
  }

  lemma InnerStores(c: Record, j: Journal, env: Env)
    requires CreateInner(c, j, env).failure.None?
    ensures var r := CreateInner(c, j, env);
            && |r.journal| > |j|
            && EndsWithStored(r.journal, c.name, c.driverName)
            && r.handle == Records(r.journal)[c.name]
  {
    hide CheckAndStore, CreateWithDriver, EndsWithStored, Records;
    var restored := Restore(c, j, env);
    var c1 := restored.handle;
    var prior := if c1.info.status.Error? then Some(c1.info) else None;
    var created := CreateWithDriver(c1, prior, restored.journal, env);
    CreatedKeepsDriver(c1, prior, restored.journal, env);
    CheckStores(created.handle, PersistStatus(created.handle, PostChecking, created.journal, env).journal, env);
  }

  /** Create returns nil only when the record is the last reply of Driver.PostCheck with status
      Running; just before that last status write, the record is the reply itself. */
  lemma CreateReturnsNil(c: Record, j: Journal, env: Env)
    requires Create(c, j, env).failure.None?
    ensures var k := Create(c, j, env).journal;
            && |k| > |j|
            && EndsWithStored(k[..|k| - 1], c.name, c.driverName)
            && c.name in Records(k)
            && Records(k)[c.name] == WithStatus(Records(k[..|k| - 1])[c.name], Status.Running)
            && LastCheck(k, c.name) == LastCheck(k[..|k| - 1], c.name)
  {
    hide CreateInner, Records, LastCheck;
    var j0 := if Interrupted(c) then PersistStatus(c, Init, j, env).journal else j;
    var inner := CreateInner(c, j0, env);
    InnerStores(c, j0, env);
    var e := StatusWritten(WithStatus(inner.handle, Status.Running), true);
    var k := Create(c, j, env).journal;
    assert k == Log(inner.journal, e);
    Logged(inner.journal, e, c.name);
    assert k[..|k| - 1] == inner.journal;
  }

  /** After a create that returned nil, nothing but a removal makes the driver create the cluster
      again, and its record stays settled at every moment, in every run that follows. */
  lemma CreatedForGood(c: Record, j: Journal, env: Env, ts: seq<Task>, later: Env)
    requires Create(c, j, env).failure.None?
    requires ReadsBack(later) && KeepsSettled(later) && NoRemoval(ts, c.name)
    ensures var k := Create(c, j, env).journal;
            var end := Run(ts, k, later);
            && (forall i :: |k| <= i <= |end| ==> Established(end[..i], c.name))
            && !CreatesBetween(k, end, c.name)
  {
    hide Create, Run, KeepsSettled, ReadsBack, NoRemoval;
    CreateReturnsNil(c, j, env);
    CreatedOnce(ts, Create(c, j, env).journal, later, c.name);
  }

  lemma CreatedKeepsDriver(c: Record, prior: Option<Info>, j: Journal, env: Env)
    ensures CreateWithDriver(c, prior, j, env).handle.driverName == c.driverName
  {
  }

  /** If the process stops after the store and before the final status write, and the reply had an
      empty status and a root certificate, then a new create on the loaded record calls no driver
      operation and ends with the record an undisturbed create would have left. */
  lemma StoppedCreateRecovers(c: Record, j: Journal, env: Env, later: Env)
    requires Create(c, j, env).failure.None?
    requires ReadsBack(later) && AlwaysWrites(later)
    ensures var k := Create(c, j, env).journal;
            && |k| > 0 && c.name in Records(k) && c.name in Records(k[..|k| - 1])
            && var stopped := k[..|k| - 1];
               var loaded := Records(stopped)[c.name];
               var again := Create(loaded, stopped, later);
               Interrupted(loaded) ==>
                 && again.failure == Some(ClusterExists)
                 && (forall i :: |stopped| <= i < |again.journal| ==> !CallsDriver(again.journal[i]))
                 && Records(again.journal) == Records(stopped)[c.name := Records(k)[c.name]]
  {
    hide Create, Records, CallsDriver;
    CreateReturnsNil(c, j, env);
    var k := Create(c, j, env).journal;
    var stopped := k[..|k| - 1];
    var loaded := Records(stopped)[c.name];
    if Interrupted(loaded) {
      RecoverLoaded(loaded, stopped, later);
    }
  }

  lemma RecoverLoaded(c: Record, j: Journal, env: Env)
    requires Interrupted(c) && ReadsBack(env) && AlwaysWrites(env)
    ensures var again := Create(c, j, env);
            && again.failure == Some(ClusterExists)
            && (forall i :: |j| <= i < |again.journal| ==> !CallsDriver(again.journal[i]))
            && Records(again.journal) == Records(j)[c.name := WithStatus(c, Status.Running)]
  {
    var j0 := PersistStatus(c, Init, j, env).journal;
    assert Records(j0)[c.name] == WithStatus(c, Init);
    assert Records(j)[c.name := WithStatus(c, Init)][c.name := WithStatus(c, Status.Running)]
        == Records(j)[c.name := WithStatus(c, Status.Running)];
  }

  /** After an update that succeeds on an established cluster the record is the last reply of
      Driver.PostCheck, status included: so a create with a fresh handle calls Driver.Create
      again exactly when that reply does not carry a settled status. */
  lemma UpdateThenCreate(c: Record, driverName: string, j: Journal, env: Env)
    requires Established(j, c.name) && Update(c, j, env).failure.None?
    requires ReadsBack(env) && AlwaysWrites(env) && AlwaysConfigured(env)
    ensures var k := Update(c, j, env).journal;
            && EndsWithStored(k, c.name, c.driverName)
            && (CreatesBetween(k, Create(NewHandle(c.name, driverName), k, env).journal, c.name) <==> !Settled(LastCheck(k, c.name).value.status))
  {
    UpdateStores(c, j, env);
    CreateCallsDriver(NewHandle(c.name, driverName), Update(c, j, env).journal, env);
  }

  lemma UpdateStores(c: Record, j: Journal, env: Env)
    requires Established(j, c.name) && Update(c, j, env).failure.None? && ReadsBack(env)
    ensures EndsWithStored(Update(c, j, env).journal, c.name, c.driverName)
  {
    hide CheckAndStore, DriverOptionsOf;
    var c1, now := Restore(c, j, env).handle, |Restore(c, j, env).journal|;
    var config, j1 := env.config(now), Log(Restore(c, j, env).journal, Configured(c.name));
    var opts := DriverOptionsOf(c1, config.value, now, env);
    var marked := PersistStatus(c1, Updating, j1, env);
    var reply := env.update(|marked.journal|, c1.info, opts);
    var c2 := c1.(info := reply.value);
    var j2 := Log(marked.journal, UpdateCalled(c.name, opts, c1.info, reply));
    CheckStores(c2, PersistStatus(c2, PostChecking, j2, env).journal, env);
  }

}
