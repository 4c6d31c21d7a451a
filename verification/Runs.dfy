/**
 Whole runs of the lifecycle: any sequence of calls, on any handles, each of which may be cut
 short between two of its interactions.
 */
module Runs {
  import opened Base
  import opened DriverOptions
  import opened OptionMaps
  import opened Lifecycle

  /** A call, and after how many of its interactions the process stops (if it does). */
  datatype Task = Task(call: Call, stop: Option<nat>)

  function After(t: Task, j: Journal, env: Env): (k: Journal)
    ensures Grown(j, k, t.call.handle.name)
    ensures k <= Perform(t.call, j, env).journal
  {
    var whole := Perform(t.call, j, env).journal;
    if t.stop.Some? && |j| + t.stop.value < |whole| then whole[..|j| + t.stop.value] else whole
  }

  /** A process can stop after any number of interactions, or go on to the end of the call. */
  lemma StopsAnywhere(call: Call, j: Journal, env: Env, n: nat)
    requires |j| + n <= |Perform(call, j, env).journal| && j <= Perform(call, j, env).journal
    ensures After(Task(call, Some(n)), j, env) == Perform(call, j, env).journal[..|j| + n]
    ensures After(Task(call, None), j, env) == Perform(call, j, env).journal
  {
  }

  function Run(ts: seq<Task>, j: Journal, env: Env): (k: Journal)
    ensures j <= k
  {
    if ts == [] then j else Run(ts[1..], After(ts[0], j, env), env)
  }

  // ---------------------------------------------------------------- created once

  /** Present records can be read. */
  ghost predicate ReadsBack(env: Env) {
    forall t :: env.read(t).readable
  }

  /** A driver that is given a settled status replies with a settled one. */
  ghost predicate KeepsSettled(env: Env) {
    && (forall t, info: Info :: Settled(info.status) && env.postCheck(t, info).Ok? ==>
          Settled(env.postCheck(t, info).value.status))
    && (forall t, info: Info, opts :: Settled(info.status) && env.update(t, info, opts).Ok? ==>
          Settled(env.update(t, info, opts).value.status))
    && (forall t, info: Info, opts, snapshot :: Settled(info.status) && env.etcdRestore(t, info, opts, snapshot).Ok? ==>
          Settled(env.etcdRestore(t, info, opts, snapshot).value.status))
  }

  /** The cluster of this name is recorded with a settled status. */
  predicate Established(j: Journal, n: string) {
    n in Records(j) && Settled(Records(j)[n].info.status)
  }

  /** An interaction that neither creates the cluster again nor unsettles or erases its record. */
  predicate Harmless(e: Event, n: string) {
    Subject(e) == n ==>
      match e
      case StatusWritten(rec, _) => Settled(rec.info.status)
      case Stored(rec, _) => Settled(rec.info.status)
      case Erased(_, _) => false
      case CreateCalled(_, _, _, _) => false
      case _ => true
  }

  predicate HarmlessSince(j: Journal, k: Journal, n: string) {
    j <= k && forall i :: |j| <= i < |k| ==> Harmless(k[i], n)
  }

  lemma {:induction false} StaysEstablished(j: Journal, k: Journal, n: string)
    requires Established(j, n) && HarmlessSince(j, k, n)
    ensures Established(k, n)
    decreases |k|
  {
    if |k| > |j| {
      var before := k[..|k| - 1];
      assert forall i :: |j| <= i < |before| ==> before[i] == k[i];
      StaysEstablished(j, before, n);
    } else {
      assert j == k;
    }
  }

  lemma CheckHarmless(c: Record, j: Journal, env: Env)
    requires Settled(c.info.status) && KeepsSettled(env)
    ensures HarmlessSince(j, CheckAndStore(c, j, env).journal, c.name)
  {
    hide Records, Apply;
  }

  lemma PostCheckHarmless(c: Record, j: Journal, env: Env)
    requires Settled(c.info.status) && KeepsSettled(env)
    ensures HarmlessSince(j, PostCheck(c, j, env).journal, c.name)
  {
    hide CheckAndStore, KeepsSettled, Records, Apply;
    CheckHarmless(c, PersistStatus(c, PostChecking, j, env).journal, env);
  }

  lemma EstablishedIsLeft(c: Record, j: Journal, env: Env)
    requires Established(j, c.name) && ReadsBack(env)
    ensures CreateInner(c, j, env) == Act(Log(j, Read(c.name)), c.(info := Records(j)[c.name].info), Some(ClusterExists))
  {
    hide CreateWithDriver, PostCheck, Apply;
  }

  lemma CreateHarmless(c: Record, j: Journal, env: Env)
    requires Established(j, c.name) && ReadsBack(env)
    ensures HarmlessSince(j, Create(c, j, env).journal, c.name)
    ensures Create(c, j, env).failure == Some(ClusterExists)
  {
    hide CreateInner, Records, ReadsBack;
    var j0 := if Interrupted(c) then PersistStatus(c, Init, j, env).journal else j;
    StaysEstablished(j, j0, c.name);
    EstablishedIsLeft(c, j0, env);
  }

  lemma WithDriverHarmless(c: Record, opts: Options, snapshot: string, j: Journal, env: Env)
    requires Settled(c.info.status) && KeepsSettled(env)
    ensures HarmlessSince(j, UpdateWithDriver(c, opts, j, env).journal, c.name)
    ensures HarmlessSince(j, RestoreWithDriver(c, opts, snapshot, j, env).journal, c.name)
  {
    hide PostCheck;
    var updated, rewound := env.update(|j|, c.info, opts), env.etcdRestore(|j|, c.info, opts, snapshot);
    if updated.Ok? {
      PostCheckHarmless(c.(info := updated.value), Log(j, UpdateCalled(c.name, opts, c.info, updated)), env);
    }
    if rewound.Ok? {
      PostCheckHarmless(c.(info := rewound.value), Log(j, RestoreCalled(c.name, opts, c.info, snapshot, rewound)), env);
    }
  }

  lemma UpdateHarmless(c: Record, j: Journal, env: Env)
    requires Established(j, c.name) && ReadsBack(env) && KeepsSettled(env)
    ensures HarmlessSince(j, Update(c, j, env).journal, c.name)
  {
    hide UpdateWithDriver, RestoreWithDriver, DriverOptionsOf;
    var c1, now := Restore(c, j, env).handle, |Restore(c, j, env).journal|;
    var config, j1 := env.config(now), Log(Restore(c, j, env).journal, Configured(c.name));
    if config.Ok? {
      var marked := PersistStatus(c1, Updating, j1, env);
      WithDriverHarmless(c1, DriverOptionsOf(c1, config.value, now, env), "", marked.journal, env);
    }
  }

  lemma GenerateHarmless(c: Record, j: Journal, env: Env)
    requires Established(j, c.name) && ReadsBack(env) && KeepsSettled(env)
    ensures HarmlessSince(j, GenerateServiceAccount(c, j, env).journal, c.name)
  {
    hide CheckAndStore, KeepsSettled;
    var restored := Restore(c, j, env);
    CheckHarmless(restored.handle, PersistStatus(restored.handle, Updating, restored.journal, env).journal, env);
  }

  lemma EtcdRestoreHarmless(c: Record, snapshot: string, j: Journal, env: Env)
    requires Established(j, c.name) && ReadsBack(env) && KeepsSettled(env)
    ensures HarmlessSince(j, EtcdRestore(c, snapshot, j, env).journal, c.name)
  {
    hide UpdateWithDriver, RestoreWithDriver, DriverOptionsOf;
    var c1, now := Restore(c, j, env).handle, |Restore(c, j, env).journal|;
    var config, j1 := env.config(now), Log(Restore(c, j, env).journal, Configured(c.name));
    if config.Ok? {
      var marked := PersistStatus(c1, Updating, j1, env);
      WithDriverHarmless(c1, DriverOptionsOf(c1, config.value, now, env), snapshot, marked.journal, env);
    }
  }

  /** No task of the run removes the cluster of this name. */
  predicate NoRemoval(ts: seq<Task>, n: string) {
    forall t :: t in ts && t.call.handle.name == n ==> !t.call.RemoveCall?
  }

  lemma TaskHarmless(t: Task, j: Journal, env: Env, n: string)
    requires Established(j, n) && ReadsBack(env) && KeepsSettled(env)
    requires t.call.handle.name == n ==> !t.call.RemoveCall?
    ensures HarmlessSince(j, After(t, j, env), n)
  {
    if t.call.handle.name == n {
      match t.call
      case CreateCall(c) => CreateHarmless(c, j, env);
      case UpdateCall(c) => UpdateHarmless(c, j, env);
      case GenerateCall(c) => GenerateHarmless(c, j, env);
      case EtcdRestoreCall(c, snapshot) => EtcdRestoreHarmless(c, snapshot, j, env);
    }
  }

  lemma {:induction false} RunHarmless(ts: seq<Task>, j: Journal, env: Env, n: string)
    requires Established(j, n) && ReadsBack(env) && KeepsSettled(env) && NoRemoval(ts, n)
    ensures HarmlessSince(j, Run(ts, j, env), n)
    decreases |ts|
  {
    if ts != [] {
      var j1 := After(ts[0], j, env);
      TaskHarmless(ts[0], j, env, n);
      StaysEstablished(j, j1, n);
      RunHarmless(ts[1..], j1, env, n);
    }
  }

  /** Once recorded with a settled status, a cluster is never created again before it is removed,
      and its record stays settled at every moment of every run: whatever the calls and their
      handles, the driver failures, the writes that are lost, and the points where a process stops. */
  lemma CreatedOnce(ts: seq<Task>, j: Journal, env: Env, n: string)
    requires Established(j, n) && ReadsBack(env) && KeepsSettled(env) && NoRemoval(ts, n)
    ensures forall i :: |j| <= i <= |Run(ts, j, env)| ==> Established(Run(ts, j, env)[..i], n)
    ensures forall i :: |j| <= i < |Run(ts, j, env)| && Run(ts, j, env)[i].CreateCalled? ==> Run(ts, j, env)[i].name != n
  {
    var k := Run(ts, j, env);
    RunHarmless(ts, j, env, n);
    forall i | |j| <= i <= |k| ensures Established(k[..i], n) {
      StaysEstablished(j, k[..i], n);
    }
  }
}
