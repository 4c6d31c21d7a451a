/**
 How every operation goes and ends, told over its interactions: which one follows which, at which
 moment, with what in it, and what is returned.  Nothing here mentions how the operations are built.
 */
module Outcomes {
  import opened Base
  import opened DriverOptions
  import opened OptionMaps
  import opened Lifecycle
  import opened Attempts

  /** The status of the cluster is written at this moment, the rest being `info`. */
  predicate Wrote(k: Journal, i: nat, c: Record, info: Info, s: Status, env: Env) {
    i < |k| && k[i] == StatusWritten(Record(c.name, c.driverName, info.(status := s)), env.write(i).Applied())
  }

  /** The call ends at this moment, holding `info`. */
  predicate Ends(r: Act, i: nat, c: Record, info: Info, failure: Option<Failure>) {
    |r.journal| == i && r.handle == Record(c.name, c.driverName, info) && r.failure == failure
  }

  /** The create ends with one more write, of status Error. */
  predicate EndsInError(r: Act, i: nat, c: Record, info: Info, f: Failure, env: Env) {
    Wrote(r.journal, i, c, info, Status.Error, env) && Ends(r, i + 1, c, info, Some(f))
  }

  const LOST := StoreFailure(false)

  /** A create from the moment after it has read the record, or failed to. */
  predicate CreateGoes(r: Act, i: nat, c: Record, seen: Info, env: Env) {
    var k := r.journal;
    if Settled(seen.status) then
      Wrote(k, i, c, seen, Status.Running, env) && Ends(r, i + 1, c, seen, Some(ClusterExists))
    else
      && Wrote(k, i, c, seen, PreCreating, env)
      && if !env.write(i).Written? then EndsInError(r, i + 1, c, seen, LOST, env)
         else
           && i + 1 < |k| && k[i + 1] == Configured(c.name)
           && match env.config(i + 1)
              case Err(e) => EndsInError(r, i + 2, c, seen, ConfigFailure(e), env)
              case Ok(config) =>
                && Wrote(k, i + 2, c, seen, Creating, env)
                && if !env.write(i + 2).Written? then EndsInError(r, i + 3, c, seen, LOST, env)
                   else DriverGoes(r, i + 3, c, seen, config, env)
  }

  /** From the call of Driver.Create: the options are the configuration under the metadata; what was
      recorded goes along after an error; whatever the driver gives is kept, even beside an error. */
  predicate DriverGoes(r: Act, i: nat, c: Record, seen: Info, config: Options, env: Env) {
    var k := r.journal;
    var opts := config.(strings := config.strings + seen.metadata);
    var prior := if seen.status.Error? then Some(seen) else None;
    var reply := env.create(i, opts, prior);
    var info := if reply.info.Some? then reply.info.value else seen;
    && i < |k| && k[i] == CreateCalled(c.name, opts, prior, reply)
    && if reply.failure.Some? then EndsInError(r, i + 1, c, info, DriverFailure(reply.failure.value), env)
       else CheckGoes(r, i + 1, c, info, env)
  }

  /** From the status write in front of Driver.PostCheck, inside a create. */
  predicate CheckGoes(r: Act, i: nat, c: Record, info: Info, env: Env) {
    var k := r.journal;
    && Wrote(k, i, c, info, PostChecking, env)
    && if !env.write(i).Written? then EndsInError(r, i + 1, c, info, LOST, env)
       else
         var check := env.postCheck(i + 1, info);
         && i + 1 < |k| && k[i + 1] == PostCheckCalled(c.name, info, check)
         && match check
            case Err(e) => EndsInError(r, i + 2, c, info, DriverFailure(e), env)
            case Ok(checked) =>
              && i + 2 < |k| && k[i + 2] == Stored(Record(c.name, c.driverName, checked), env.write(i + 2).Applied())
              && if !env.write(i + 2).Written? then EndsInError(r, i + 3, c, checked, LOST, env)
                 else
                   && Wrote(k, i + 3, c, checked, Status.Running, env)
                   && Ends(r, i + 4, c, checked, if env.write(i + 3).Written? then None else Some(LOST))
  }

  /** The same outside a create, where no last status is written. */
  predicate CheckEnds(r: Act, i: nat, c: Record, info: Info, env: Env) {
    var k, check := r.journal, env.postCheck(i, info);
    && i < |k| && k[i] == PostCheckCalled(c.name, info, check)
    && match check
       case Err(e) => Ends(r, i + 1, c, info, Some(DriverFailure(e)))
       case Ok(checked) =>
         && i + 1 < |k| && k[i + 1] == Stored(Record(c.name, c.driverName, checked), env.write(i + 1).Applied())
         && Ends(r, i + 2, c, checked, if env.write(i + 1).Written? then None else Some(LOST))
  }

  predicate PostCheckEnds(r: Act, i: nat, c: Record, info: Info, env: Env) {
    && Wrote(r.journal, i, c, info, PostChecking, env)
    && if !env.write(i).Written? then Ends(r, i + 1, c, info, Some(LOST)) else CheckEnds(r, i + 1, c, info, env)
  }

  /** Where a create starts to read: after the write that an interrupted create comes with. */
  function Started(c: Record, j: Journal): (i: nat) {
    if Interrupted(c) then |j| + 1 else |j|
  }

  /** What a create goes by once it has read, or failed to. */
  function GoesBy(c: Record, j: Journal, env: Env): (info: Info) {
    if !env.read(Started(c, j)).readable then c.info
    else if Interrupted(c) && env.write(|j|).Applied() then c.info.(status := Init)
    else if c.name in Records(j) then Records(j)[c.name].info
    else c.info
  }

  // ---------------------------------------------------------------- create

  lemma CheckShape(c: Record, j: Journal, env: Env)
    ensures CheckEnds(CheckAndStore(c, j, env), |j|, c, c.info, env) && j <= CheckAndStore(c, j, env).journal
  {
    hide Records, Apply;
  }

  lemma PostCheckShape(c: Record, j: Journal, env: Env)
    ensures PostCheckEnds(PostCheck(c, j, env), |j|, c, c.info, env) && j <= PostCheck(c, j, env).journal
  {
    hide Records, Apply, CheckAndStore;
    var marked := PersistStatus(c, PostChecking, j, env);
    CheckShape(c, marked.journal, env);
  }

  /** How createInner goes from the moment after reading. */
  predicate StepsGo(r: Act, i: nat, c: Record, seen: Info, env: Env) {
    var k := r.journal;
    && Wrote(k, i, c, seen, PreCreating, env)
    && if !env.write(i).Written? then Ends(r, i + 1, c, seen, Some(LOST))
       else
         && i + 1 < |k| && k[i + 1] == Configured(c.name)
         && match env.config(i + 1)
            case Err(e) => Ends(r, i + 2, c, seen, Some(ConfigFailure(e)))
            case Ok(config) =>
              && Wrote(k, i + 2, c, seen, Creating, env)
              && if !env.write(i + 2).Written? then Ends(r, i + 3, c, seen, Some(LOST))
                 else
                   var opts := config.(strings := config.strings + seen.metadata);
                   var prior := if seen.status.Error? then Some(seen) else None;
                   var reply := env.create(i + 3, opts, prior);
                   var info := if reply.info.Some? then reply.info.value else seen;
                   && i + 3 < |k| && k[i + 3] == CreateCalled(c.name, opts, prior, reply)
                   && Ends(r, i + 4, c, info, if reply.failure.Some? then Some(DriverFailure(reply.failure.value)) else None)
  }

  lemma StepsShape(c: Record, j: Journal, env: Env)
    ensures StepsGo(CreateSteps(c, PriorOf(c.info), j, env), |j|, c, c.info, env)
  {
    hide Records, Apply;
  }

  lemma RestoreShape(c: Record, j: Journal, env: Env)
    ensures var r := Restore(c, j, env);
            && r.journal == j + [Read(c.name)]
            && if c.name in Records(j) && env.read(|j|).readable
               then r.handle == c.(info := Records(j)[c.name].info) && r.failure.None?
               else r.handle == c && r.failure == Some(StoreFailure(env.read(|j|).notFound))
  {
  }

  /** The write that ends a create. */
  lemma LastShape(c: Record, j: Journal, env: Env)
    ensures var r, inner := Create(c, j, env), CreateInner(c, Marked(c, j, env), env);
            var i := |inner.journal|;
            && inner.journal <= r.journal && |r.journal| == i + 1 && r.handle == inner.handle
            && (inner.failure.None? ==>
                  Wrote(r.journal, i, inner.handle, inner.handle.info, Status.Running, env) && r.failure == env.write(i).Failed())
            && (inner.failure == Some(ClusterExists) ==>
                  Wrote(r.journal, i, inner.handle, inner.handle.info, Status.Running, env) && r.failure == inner.failure)
            && (inner.failure.Some? && inner.failure != Some(ClusterExists) ==>
                  Wrote(r.journal, i, inner.handle, inner.handle.info, Status.Error, env) && r.failure == inner.failure)
  {
    hide Records, Apply, CreateInner;
  }

  lemma InnerShape(c: Record, j: Journal, env: Env)
    ensures var seen := Seen(c, j, env);
            var r, c1, j1 := CreateInner(c, j, env), c.(info := seen), j + [Read(c.name)];
            if Settled(seen.status) then r == Act(j1, c1, Some(ClusterExists))
            else
              var steps := CreateSteps(c1, PriorOf(seen), j1, env);
              r == if steps.failure.Some? then steps else PostCheck(steps.handle, steps.journal, env)
  {
    hide Restore, CreateSteps, PostCheck, Seen, Records;
    RestoreSees(c, j, env);
  }

  lemma GoesBySeen(c: Record, j: Journal, env: Env)
    ensures Marked(c, j, env) == (if Interrupted(c) then j + [StatusWritten(WithStatus(c, Init), env.write(|j|).Applied())] else j)
    ensures GoesBy(c, j, env) == Seen(c, Marked(c, j, env), env)
  {
  }

  /** What failed before Driver.PostCheck ends with status Error. */
  lemma StepsThenLast(r: Act, inner: Act, i: nat, c: Record, seen: Info, env: Env)
    requires StepsGo(inner, i, c, seen, env) && !Settled(seen.status) && inner.failure.Some? && inner.failure != Some(ClusterExists)
    requires inner.journal <= r.journal && |r.journal| == |inner.journal| + 1 && r.handle == inner.handle
    requires Wrote(r.journal, |inner.journal|, inner.handle, inner.handle.info, Status.Error, env) && r.failure == inner.failure
    ensures CreateGoes(r, i, c, seen, env)
  {
  }

  lemma CheckThenLast(r: Act, steps: Act, inner: Act, i: nat, c: Record, seen: Info, env: Env)
    requires StepsGo(steps, i, c, seen, env) && !Settled(seen.status) && steps.failure.None?
    requires PostCheckEnds(inner, |steps.journal|, steps.handle, steps.handle.info, env)
    requires steps.journal <= inner.journal <= r.journal && |r.journal| == |inner.journal| + 1 && r.handle == inner.handle
    requires inner.failure.None? ==>
               Wrote(r.journal, |inner.journal|, inner.handle, inner.handle.info, Status.Running, env)
               && r.failure == env.write(|inner.journal|).Failed()
    requires inner.failure.Some? ==>
               Wrote(r.journal, |inner.journal|, inner.handle, inner.handle.info, Status.Error, env) && r.failure == inner.failure
    ensures CreateGoes(r, i, c, seen, env)
  {
    hide CheckGoes;
    LastOfCheck(r, inner, |steps.journal|, c, steps.handle.info, env);
  }

  lemma LastOfCheck(r: Act, inner: Act, i: nat, c: Record, info: Info, env: Env)
    requires PostCheckEnds(inner, i, c, info, env)
    requires inner.journal <= r.journal && |r.journal| == |inner.journal| + 1 && r.handle == inner.handle
    requires inner.failure.None? ==>
               Wrote(r.journal, |inner.journal|, inner.handle, inner.handle.info, Status.Running, env)
               && r.failure == env.write(|inner.journal|).Failed()
    requires inner.failure.Some? ==>
               Wrote(r.journal, |inner.journal|, inner.handle, inner.handle.info, Status.Error, env) && r.failure == inner.failure
    ensures CheckGoes(r, i, c, info, env)
  {
  }

  /** Every create, on every handle, store and world: a write of status Init first when the handle
      shows an interrupted create, then a read, then as told. */
  lemma CreateIs(c: Record, j: Journal, env: Env)
    ensures var r, i := Create(c, j, env), Started(c, j);
            && j <= r.journal
            && (Interrupted(c) ==> Wrote(r.journal, |j|, c, c.info, Init, env))
            && i < |r.journal| && r.journal[i] == Read(c.name)
            && CreateGoes(r, i + 1, c, GoesBy(c, j, env), env)
  {
    hide Create, CreateInner, CreateSteps, PostCheck, Marked, Seen, GoesBy, CreateGoes, StepsGo, PostCheckEnds, Records;
    var r, m := Create(c, j, env), Marked(c, j, env);
    var seen := Seen(c, m, env);
    var inner, c1, j1 := CreateInner(c, m, env), c.(info := seen), m + [Read(c.name)];
    GoesBySeen(c, j, env);
    LastShape(c, j, env);
    InnerShape(c, m, env);
    if Settled(seen.status) {
      SettledEnds(r, |j1|, c, seen, env);
    } else {
      var steps := CreateSteps(c1, PriorOf(seen), j1, env);
      StepsShape(c1, j1, env);
      StepsForOther(steps, |j1|, c1, c, seen, env);
      StepsHold(c1, PriorOf(seen), j1, env);
      if steps.failure.Some? {
        StepsThenLast(r, inner, |j1|, c, seen, env);
      } else {
        PostCheckShape(steps.handle, steps.journal, env);
        PostCheckExists(steps.handle, steps.journal, env);
        CheckThenLast(r, steps, inner, |j1|, c, seen, env);
      }
    }
  }

  lemma SettledEnds(r: Act, i: nat, c: Record, seen: Info, env: Env)
    requires Settled(seen.status) && |r.journal| == i + 1 && r.handle == c.(info := seen) && r.failure == Some(ClusterExists)
    requires Wrote(r.journal, i, r.handle, seen, Status.Running, env)
    ensures CreateGoes(r, i, c, seen, env)
  {
  }

  lemma StepsForOther(r: Act, i: nat, c: Record, d: Record, seen: Info, env: Env)
    requires StepsGo(r, i, c, seen, env) && c.name == d.name && c.driverName == d.driverName
    ensures StepsGo(r, i, d, seen, env)
  {
  }

  lemma PostCheckExists(c: Record, j: Journal, env: Env)
    ensures PostCheck(c, j, env).failure != Some(ClusterExists)
  {
    hide Records, Apply;
  }

  /** In a create, Driver.Create is called at one moment at the most. */
  lemma GoesAsk(r: Act, i: nat, c: Record, seen: Info, env: Env, x: nat)
    requires CreateGoes(r, i, c, seen, env) && i <= x < |r.journal|
    ensures r.journal[x].CreateCalled? <==> x == i + 3 && !Settled(seen.status) && Clear(i, env)
  {
  }

  lemma GoesTell(r: Act, i: nat, c: Record, seen: Info, env: Env)
    requires CreateGoes(r, i, c, seen, env) && i + 3 < |r.journal| && r.journal[i + 3].CreateCalled?
    ensures r.journal[i + 3].name == c.name && r.journal[i + 3].prior == PriorOf(seen)
  {
  }

  lemma GoesNoUpdate(r: Act, i: nat, c: Record, seen: Info, env: Env, x: nat)
    requires CreateGoes(r, i, c, seen, env) && i <= x < |r.journal|
    ensures !r.journal[x].UpdateCalled?
  {
  }

  lemma GoesReach(r: Act, i: nat, c: Record, seen: Info, env: Env)
    requires CreateGoes(r, i, c, seen, env) && !Settled(seen.status) && Clear(i, env)
    ensures i + 3 < |r.journal| && r.journal[i + 3].CreateCalled?
  {
  }

  lemma GoesReturnsError(r: Act, i: nat, c: Record, seen: Info, env: Env)
    requires CreateGoes(r, i, c, seen, env) && i + 3 < |r.journal| && r.journal[i + 3].CreateCalled?
    requires r.journal[i + 3].created.failure.Some?
    ensures var called := r.journal[i + 3].created;
            && r.failure == Some(DriverFailure(called.failure.value))
            && |r.journal| == i + 5
            && Wrote(r.journal, i + 4, c, if called.info.Some? then called.info.value else seen, Status.Error, env)
  {
  }

  /** An error of Driver.Create comes back to the caller, and the record says Error, its other fields
      being those the driver gave beside the error, or those gone by when it gave none. */
  lemma DriverErrorComesBack(c: Record, j: Journal, env: Env, x: nat)
    requires |j| <= x < |Create(c, j, env).journal| && Create(c, j, env).journal[x].CreateCalled?
    requires Create(c, j, env).journal[x].created.failure.Some?
    ensures var r := Create(c, j, env);
            var called := r.journal[x].created;
            && r.failure == Some(DriverFailure(called.failure.value))
            && |r.journal| == x + 2
            && r.journal[x + 1].StatusWritten?
            && r.journal[x + 1].rec == Record(c.name, c.driverName,
                 (if called.info.Some? then called.info.value else GoesBy(c, j, env)).(status := Status.Error))
  {
    hide Create, GoesBy, CreateGoes;
    CreateIs(c, j, env);
    var r, i := Create(c, j, env), Started(c, j);
    if x > i {
      GoesAsk(r, i + 1, c, GoesBy(c, j, env), env, x);
      GoesReturnsError(r, i + 1, c, GoesBy(c, j, env), env);
    }
  }

  /** A create returns nil exactly when it goes all the way: nothing settled to begin with, every one
      of its five reported writes done, a configuration, and no error from either driver call. */
  lemma CreateReturnsNilExactly(c: Record, j: Journal, env: Env)
    ensures var r, i := Create(c, j, env), Started(c, j) + 1;
            var k := r.journal;
            r.failure.None? <==>
              && !Settled(GoesBy(c, j, env).status) && Clear(i, env)
              && |k| == i + 8
              && k[i + 3].CreateCalled? && k[i + 3].created.failure.None?
              && env.write(i + 4).Written?
              && k[i + 5].PostCheckCalled? && k[i + 5].reply.Ok?
              && env.write(i + 6).Written? && env.write(i + 7).Written?
  {
    hide Create, GoesBy;
    CreateIs(c, j, env);
  }

  // ---------------------------------------------------------------- update, backup, service account

  /** The record is there and can be read at this moment. */
  predicate Readable(n: string, j: Journal, env: Env) {
    n in Records(j) && env.read(|j|).readable
  }

  /** A read that fails ends the call, the handle being as it was. */
  predicate UnreadEnds(r: Act, c: Record, j: Journal, env: Env) {
    Ends(r, |j| + 1, c, c.info, Some(StoreFailure(env.read(|j|).notFound)))
  }

  /** The options of updates and backups: metadata over the name over the configuration over the
      first occurrences in the saved state. */
  predicate Prioritised(opts: Options, config: Options, n: string, metadata: map<string, string>, now: nat, env: Env) {
    var saved := if "state" in metadata then env.decode(now, metadata["state"]) else None;
    var layer := if saved.None? then NoOptions
                 else Overwrite(Leaves(Style("tags", env.show), Mirror(Style("tags", env.show), saved.value)), NoOptions);
    && opts.strings == layer.strings + config.strings + map["name" := n] + (metadata - {"state"})
    && opts.ints == layer.ints + config.ints
    && opts.bools == layer.bools + config.bools
    && opts.lists == layer.lists + config.lists
  }

  /** From the configuration to the status write Updating, and from there to a driver call at i + 2. */
  predicate Prepares(r: Act, i: nat, c: Record, rec: Info, env: Env) {
    var k := r.journal;
    && i < |k| && k[i] == Configured(c.name)
    && match env.config(i)
       case Err(e) => Ends(r, i + 1, c, rec, Some(ConfigFailure(e)))
       case Ok(_) =>
         && Wrote(k, i + 1, c, rec, Updating, env)
         && (!env.write(i + 1).Written? ==> Ends(r, i + 2, c, rec, Some(LOST)))
  }

  predicate Prepared(i: nat, env: Env) {
    env.config(i).Ok? && env.write(i + 1).Written?
  }

  predicate UpdateGoes(r: Act, i: nat, c: Record, rec: Info, env: Env) {
    var k := r.journal;
    && Prepares(r, i, c, rec, env)
    && (Prepared(i, env) ==>
          && i + 2 < |k| && k[i + 2].UpdateCalled?
          && Prioritised(k[i + 2].opts, env.config(i).value, c.name, rec.metadata, i, env)
          && var reply := env.update(i + 2, rec, k[i + 2].opts);
             && k[i + 2] == UpdateCalled(c.name, k[i + 2].opts, rec, reply)
             && match reply
                case Err(e) => Ends(r, i + 3, c, rec, Some(DriverFailure(e)))
                case Ok(info) => PostCheckEnds(r, i + 3, c, info, env))
  }

  predicate RestoreGoes(r: Act, i: nat, c: Record, rec: Info, snapshot: string, env: Env) {
    var k := r.journal;
    && Prepares(r, i, c, rec, env)
    && (Prepared(i, env) ==>
          && i + 2 < |k| && k[i + 2].RestoreCalled?
          && Prioritised(k[i + 2].opts, env.config(i).value, c.name, rec.metadata, i, env)
          && var reply := env.etcdRestore(i + 2, rec, k[i + 2].opts, snapshot);
             && k[i + 2] == RestoreCalled(c.name, k[i + 2].opts, rec, snapshot, reply)
             && match reply
                case Err(e) => Ends(r, i + 3, c, rec, Some(DriverFailure(e)))
                case Ok(info) => PostCheckEnds(r, i + 3, c, info, env))
  }

  lemma OptionsArePrioritised(c: Record, config: Options, now: nat, env: Env)
    ensures Prioritised(DriverOptionsOf(c, config, now, env), config, c.name, c.info.metadata, now, env)
  {
    hide Merged, Leaves, Overwrite, Mirror;
    UpdatePriorities(Style(TAGS, env.show), config, c.name, c.info.metadata, SavedState(c.info.metadata, now, env));
  }

  lemma UpdateCallShape(c: Record, config: Options, now: nat, j: Journal, env: Env)
    ensures var r, opts := UpdateWithDriver(c, DriverOptionsOf(c, config, now, env), j, env), DriverOptionsOf(c, config, now, env);
            var reply := env.update(|j|, c.info, opts);
            && j <= r.journal && |j| < |r.journal| && r.journal[|j|] == UpdateCalled(c.name, opts, c.info, reply)
            && match reply
               case Err(e) => Ends(r, |j| + 1, c, c.info, Some(DriverFailure(e)))
               case Ok(info) => PostCheckEnds(r, |j| + 1, c, info, env)
  {
    hide PostCheck, PostCheckEnds, DriverOptionsOf, Records, Apply;
    var opts := DriverOptionsOf(c, config, now, env);
    var reply := env.update(|j|, c.info, opts);
    if reply.Ok? {
      var j1 := Log(j, UpdateCalled(c.name, opts, c.info, reply));
      PostCheckShape(c.(info := reply.value), j1, env);
      ForOther(PostCheck(c.(info := reply.value), j1, env), |j1|, c.(info := reply.value), c, reply.value, env);
    }
  }

  lemma RestoreCallShape(c: Record, config: Options, now: nat, snapshot: string, j: Journal, env: Env)
    ensures var opts := DriverOptionsOf(c, config, now, env);
            var r, reply := RestoreWithDriver(c, opts, snapshot, j, env), env.etcdRestore(|j|, c.info, opts, snapshot);
            && j <= r.journal && |j| < |r.journal| && r.journal[|j|] == RestoreCalled(c.name, opts, c.info, snapshot, reply)
            && match reply
               case Err(e) => Ends(r, |j| + 1, c, c.info, Some(DriverFailure(e)))
               case Ok(info) => PostCheckEnds(r, |j| + 1, c, info, env)
  {
    hide PostCheck, PostCheckEnds, DriverOptionsOf, Records, Apply;
    var opts := DriverOptionsOf(c, config, now, env);
    var reply := env.etcdRestore(|j|, c.info, opts, snapshot);
    if reply.Ok? {
      var j1 := Log(j, RestoreCalled(c.name, opts, c.info, snapshot, reply));
      PostCheckShape(c.(info := reply.value), j1, env);
      ForOther(PostCheck(c.(info := reply.value), j1, env), |j1|, c.(info := reply.value), c, reply.value, env);
    }
  }

  lemma ForOther(r: Act, i: nat, c: Record, d: Record, info: Info, env: Env)
    requires PostCheckEnds(r, i, c, info, env) && c.name == d.name && c.driverName == d.driverName
    ensures PostCheckEnds(r, i, d, info, env)
  {
  }

  /** What a call prepares, once the record has been read into the handle. */
  lemma PreparedShape(c1: Record, j1: Journal, env: Env)
    ensures env.config(|j1|).Ok? ==>
              var marked := PersistStatus(c1, Updating, Log(j1, Configured(c1.name)), env);
              && j1 <= marked.journal && |marked.journal| == |j1| + 2 && marked.journal[|j1|] == Configured(c1.name)
              && Wrote(marked.journal, |j1| + 1, c1, c1.info, Updating, env)
              && marked.handle == c1 && marked.failure == env.write(|j1| + 1).Failed()
  {
    hide Records, Apply;
  }

  /** The part of an update that asks the driver to update. */
  lemma UpdateGoesOn(c: Record, c1: Record, j1: Journal, r: Act, env: Env)
    requires c1 == Record(c.name, c.driverName, c1.info)
    requires var config, j2 := env.config(|j1|), Log(j1, Configured(c1.name));
             r == if config.Err? then Act(j2, c1, Some(ConfigFailure(config.error)))
                  else
                    var marked := PersistStatus(c1, Updating, j2, env);
                    if marked.failure.Some? then marked
                    else UpdateWithDriver(c1, DriverOptionsOf(c1, config.value, |j1|, env), marked.journal, env)
    ensures UpdateGoes(r, |j1|, c, c1.info, env)
  {
    hide PersistStatus, UpdateWithDriver, DriverOptionsOf, Prioritised, PostCheckEnds, Records, Apply;
    PreparedShape(c1, j1, env);
    if Prepared(|j1|, env) {
      var config, marked := env.config(|j1|).value, PersistStatus(c1, Updating, Log(j1, Configured(c1.name)), env);
      OptionsArePrioritised(c1, config, |j1|, env);
      UpdateCallShape(c1, config, |j1|, marked.journal, env);
      var reply := env.update(|marked.journal|, c1.info, DriverOptionsOf(c1, config, |j1|, env));
      if reply.Ok? {
        ForOther(r, |marked.journal| + 1, c1, c, reply.value, env);
      }
    }
  }

  lemma RestoreGoesOn(c: Record, c1: Record, snapshot: string, j1: Journal, r: Act, env: Env)
    requires c1 == Record(c.name, c.driverName, c1.info)
    requires var config, j2 := env.config(|j1|), Log(j1, Configured(c1.name));
             r == if config.Err? then Act(j2, c1, Some(ConfigFailure(config.error)))
                  else
                    var marked := PersistStatus(c1, Updating, j2, env);
                    if marked.failure.Some? then marked
                    else RestoreWithDriver(c1, DriverOptionsOf(c1, config.value, |j1|, env), snapshot, marked.journal, env)
    ensures RestoreGoes(r, |j1|, c, c1.info, snapshot, env)
  {
    hide PersistStatus, RestoreWithDriver, DriverOptionsOf, Prioritised, PostCheckEnds, Records, Apply;
    PreparedShape(c1, j1, env);
    if Prepared(|j1|, env) {
      var config, marked := env.config(|j1|).value, PersistStatus(c1, Updating, Log(j1, Configured(c1.name)), env);
      OptionsArePrioritised(c1, config, |j1|, env);
      RestoreCallShape(c1, config, |j1|, snapshot, marked.journal, env);
      var reply := env.etcdRestore(|marked.journal|, c1.info, DriverOptionsOf(c1, config, |j1|, env), snapshot);
      if reply.Ok? {
        ForOther(r, |marked.journal| + 1, c1, c, reply.value, env);
      }
    }
  }

  /** Every update: a read; then nothing more when it fails, a create after an error, a refusal while
      a create is under way, and otherwise the update itself. */
  predicate UpdateTold(r: Act, c: Record, j: Journal, env: Env) {
    var k := r.journal;
    && |j| < |k| && k[|j|] == Read(c.name)
    && if !Readable(c.name, j, env) then UnreadEnds(r, c, j, env)
       else
         var rec := Records(j)[c.name].info;
         match rec.status
         case Error => |j| + 1 < |k| && k[|j| + 1] == Read(c.name) && CreateGoes(r, |j| + 2, c, rec, env)
         case PreCreating => Ends(r, |j| + 1, c, rec, Some(NotCreated))
         case Creating => Ends(r, |j| + 1, c, rec, Some(NotCreated))
         case _ => UpdateGoes(r, |j| + 1, c, rec, env)
  }

  lemma UpdateIs(c: Record, j: Journal, env: Env)
    ensures j <= Update(c, j, env).journal && UpdateTold(Update(c, j, env), c, j, env)
  {
    hide Restore, Create, PersistStatus, UpdateWithDriver, DriverOptionsOf, CreateGoes, UpdateGoes, GoesBy, Records, Apply;
    var r, restored := Update(c, j, env), Restore(c, j, env);
    RestoreShape(c, j, env);
    if Readable(c.name, j, env) {
      var rec, c1, j1 := Records(j)[c.name].info, restored.handle, restored.journal;
      if rec.status.Error? {
        CreateIs(c1, j1, env);
        LoadedGoesBy(c1, j, env);
        GoesForOther(r, |j1| + 1, c1, c, rec, env);
      } else if !rec.status.PreCreating? && !rec.status.Creating? {
        UpdateGoesOn(c, c1, j1, r, env);
      }
    }
  }

  /** A handle just loaded goes by the record, whether or not it is read again. */
  lemma LoadedGoesBy(c: Record, j: Journal, env: Env)
    requires c.name in Records(j) && c.info == Records(j)[c.name].info && !Interrupted(c)
    ensures GoesBy(c, j + [Read(c.name)], env) == c.info
  {
    assert Log(j, Read(c.name)) == j + [Read(c.name)];
  }

  lemma GoesForOther(r: Act, i: nat, c: Record, d: Record, seen: Info, env: Env)
    requires CreateGoes(r, i, c, seen, env) && c.name == d.name && c.driverName == d.driverName
    ensures CreateGoes(r, i, d, seen, env)
  {
  }

  /** Every restore of a backup: the record is read, and the driver gets the snapshot asked for, the
      record, and the prioritised options. */
  lemma EtcdRestoreIs(c: Record, snapshot: string, j: Journal, env: Env)
    ensures var r := EtcdRestore(c, snapshot, j, env);
            && j < r.journal && r.journal[|j|] == Read(c.name)
            && if !Readable(c.name, j, env) then UnreadEnds(r, c, j, env)
               else RestoreGoes(r, |j| + 1, c, Records(j)[c.name].info, snapshot, env)
  {
    hide Restore, PersistStatus, RestoreWithDriver, DriverOptionsOf, RestoreGoes, Records, Apply;
    var restored := Restore(c, j, env);
    RestoreShape(c, j, env);
    if Readable(c.name, j, env) {
      RestoreGoesOn(c, restored.handle, snapshot, restored.journal, EtcdRestore(c, snapshot, j, env), env);
    }
  }

  /** Every generation of a service account: the record is marked Updating, checked and stored. */
  lemma GenerateIs(c: Record, j: Journal, env: Env)
    ensures var r := GenerateServiceAccount(c, j, env);
            && j < r.journal && r.journal[|j|] == Read(c.name)
            && if !Readable(c.name, j, env) then UnreadEnds(r, c, j, env)
               else
                 var rec := Records(j)[c.name].info;
                 && Wrote(r.journal, |j| + 1, c, rec, Updating, env)
                 && if !env.write(|j| + 1).Written? then Ends(r, |j| + 2, c, rec, Some(LOST))
                    else CheckEnds(r, |j| + 2, c, rec, env)
  {
    hide Restore, CheckAndStore, CheckEnds, Records, Apply;
    var restored := Restore(c, j, env);
    RestoreShape(c, j, env);
    if Readable(c.name, j, env) {
      var c1, marked := restored.handle, PersistStatus(restored.handle, Updating, restored.journal, env);
      CheckShape(c1, marked.journal, env);
      CheckForOther(CheckAndStore(c1, marked.journal, env), |marked.journal|, c1, c, c1.info, env);
    }
  }

  lemma CheckForOther(r: Act, i: nat, c: Record, d: Record, info: Info, env: Env)
    requires CheckEnds(r, i, c, info, env) && c.name == d.name && c.driverName == d.driverName
    ensures CheckEnds(r, i, d, info, env)
  {
  }

  lemma UpdateGoesAsk(r: Act, i: nat, c: Record, rec: Info, env: Env, x: nat)
    requires UpdateGoes(r, i, c, rec, env) && i <= x < |r.journal|
    ensures !r.journal[x].CreateCalled?
    ensures r.journal[x].UpdateCalled? <==> x == i + 2 && Prepared(i, env)
  {
    hide Prioritised;
  }

  /** An update of a cluster whose create failed creates it again, and tells the driver all that was
      recorded; an update of one that is being created does nothing but refuse; any other asks the
      driver to update exactly when the configuration and the status write succeed, and never creates. */
  lemma UpdateAsks(c: Record, j: Journal, env: Env)
    requires Readable(c.name, j, env)
    ensures var r, rec := Update(c, j, env), Records(j)[c.name].info;
            var k := r.journal;
            match rec.status
            case Error =>
              && (CreatesBetween(j, k, c.name) <==> Clear(|j| + 2, env))
              && Told(j, k, Some(rec))
              && (forall x :: |j| <= x < |k| ==> !k[x].UpdateCalled?)
            case PreCreating => k == j + [Read(c.name)] && r.failure == Some(NotCreated)
            case Creating => k == j + [Read(c.name)] && r.failure == Some(NotCreated)
            case _ =>
              && (forall x :: |j| <= x < |k| ==> !k[x].CreateCalled?)
              && (Prepared(|j| + 1, env) <==> exists x :: |j| <= x < |k| && k[x].UpdateCalled?)
  {
    hide Update, CreateGoes, UpdateGoes, Records, Clear;
    UpdateIs(c, j, env);
    var r, rec := Update(c, j, env), Records(j)[c.name].info;
    var k := r.journal;
    match rec.status
    case PreCreating =>
    case Creating =>
    case Error =>
      forall x | |j| + 2 <= x < |k|
        ensures (k[x].CreateCalled? <==> x == |j| + 5 && Clear(|j| + 2, env)) && !k[x].UpdateCalled?
        ensures k[x].CreateCalled? ==> k[x].name == c.name && k[x].prior == PriorOf(rec)
      {
        GoesAsk(r, |j| + 2, c, rec, env, x);
        GoesNoUpdate(r, |j| + 2, c, rec, env, x);
        if k[x].CreateCalled? {
          GoesTell(r, |j| + 2, c, rec, env);
        }
      }
      if Clear(|j| + 2, env) {
        GoesReach(r, |j| + 2, c, rec, env);
      }
    case _ =>
      forall x | |j| + 1 <= x < |k|
        ensures !k[x].CreateCalled? && (k[x].UpdateCalled? <==> x == |j| + 3 && Prepared(|j| + 1, env))
      {
        UpdateGoesAsk(r, |j| + 1, c, rec, env, x);
      }
      if Prepared(|j| + 1, env) {
        UpdateReach(r, |j| + 1, c, rec, env);
      }
  }

  lemma UpdateReach(r: Act, i: nat, c: Record, rec: Info, env: Env)
    requires UpdateGoes(r, i, c, rec, env) && Prepared(i, env)
    ensures i + 2 < |r.journal| && r.journal[i + 2].UpdateCalled?
  {
    hide Prioritised;
  }

  // ---------------------------------------------------------------- remove

  /** The driver lets go of the cluster, or it does not matter. */
  predicate LetGo(rec: Info, force: bool, now: nat, env: Env) {
    env.remove(now, rec).None? || force
  }

  lemma EraseShape(c: Record, j: Journal, env: Env)
    ensures var r := Erase(c, j, env);
            && j <= r.journal && |r.journal| == |j| + 1 && r.journal[|j|] == Erased(c.name, env.write(|j|).Applied())
            && r.handle == c && r.failure == env.write(|j|).Failed()
            && Records(r.journal) == if env.write(|j|).Applied() then Records(j) - {c.name} else Records(j)
  {
    hide Records;
  }

  /** The journal of a removal once the driver has been asked. */
  function Asked(c: Record, rec: Info, j: Journal, env: Env): (k: Journal)
    ensures j <= k && |k| == |j| + 2 && k[|j|] == Read(c.name)
    ensures k[|j| + 1] == RemoveCalled(c.name, rec, env.remove(|j| + 1, rec))
    ensures Records(k) == Records(j)
  {
    Log(Log(j, Read(c.name)), RemoveCalled(c.name, rec, env.remove(|j| + 1, rec)))
  }

  lemma RemoveShape(c: Record, force: bool, j: Journal, env: Env)
    requires Readable(c.name, j, env)
    ensures var rec := Records(j)[c.name].info;
            var c1, k := c.(info := rec), Asked(c, rec, j, env);
            Remove(c, force, j, env) ==
            if LetGo(rec, force, |j| + 1, env) then Erase(c1, k, env)
            else Act(k, c1, Some(DriverFailure(env.remove(|j| + 1, rec).value)))
  {
    hide Restore, Erase, Records, Apply;
    RestoreShape(c, j, env);
    assert Restore(c, j, env).journal == Log(j, Read(c.name));
  }

  predicate RemoveTold(r: Act, c: Record, force: bool, j: Journal, env: Env) {
    var k := r.journal;
    && |j| < |k| && k[|j|] == Read(c.name)
    && if !Readable(c.name, j, env) then Ends(r, |j| + 1, c, c.info, if env.read(|j|).notFound then None else Some(LOST))
       else
         var rec := Records(j)[c.name].info;
         && |j| + 1 < |k| && k[|j| + 1] == RemoveCalled(c.name, rec, env.remove(|j| + 1, rec))
         && if !LetGo(rec, force, |j| + 1, env)
            then Ends(r, |j| + 2, c, rec, Some(DriverFailure(env.remove(|j| + 1, rec).value)))
            else
              && |j| + 2 < |k| && k[|j| + 2] == Erased(c.name, env.write(|j| + 2).Applied())
              && Ends(r, |j| + 3, c, rec, if env.write(|j| + 2).Written? then None else Some(LOST))
  }

  lemma RemoveUnread(c: Record, force: bool, j: Journal, env: Env)
    requires !Readable(c.name, j, env)
    ensures var r := Remove(c, force, j, env); j <= r.journal && RemoveTold(r, c, force, j, env) && Records(r.journal) == Records(j)
  {
    hide Erase, Restore, Records;
    RestoreShape(c, j, env);
    assert Log(j, Read(c.name)) == Restore(c, j, env).journal;
  }

  lemma RemoveRead(c: Record, force: bool, j: Journal, env: Env)
    requires Readable(c.name, j, env)
    ensures var r := Remove(c, force, j, env);
            && j <= r.journal
            && RemoveTold(r, c, force, j, env)
            && Records(r.journal) ==
                 if LetGo(Records(j)[c.name].info, force, |j| + 1, env) && env.write(|j| + 2).Applied()
                 then Records(j) - {c.name} else Records(j)
  {
    hide Remove, Erase, Asked, Records, Apply;
    var rec := Records(j)[c.name].info;
    RemoveShape(c, force, j, env);
    if LetGo(rec, force, |j| + 1, env) {
      EraseShape(c.(info := rec), Asked(c, rec, j, env), env);
    }
  }

  /** Every removal: the driver is asked, with the recorded information, exactly when the record can
      be read; the record is erased exactly when the driver then lets go or the removal is forced; an
      error of the driver comes back otherwise; and a record that is not found is as good as removed. */
  lemma RemoveIs(c: Record, force: bool, j: Journal, env: Env)
    ensures var r := Remove(c, force, j, env);
            && j <= r.journal
            && RemoveTold(r, c, force, j, env)
            && Records(r.journal) ==
                 if Readable(c.name, j, env) && LetGo(Records(j)[c.name].info, force, |j| + 1, env) && env.write(|j| + 2).Applied()
                 then Records(j) - {c.name} else Records(j)
  {
    hide Remove, Records, RemoveTold;
    if Readable(c.name, j, env) {
      RemoveRead(c, force, j, env);
    } else {
      RemoveUnread(c, force, j, env);
    }
  }

  /** Nil is returned exactly when the record was erased and the store said so, or was not found. */
  lemma RemoveReturnsNilExactly(c: Record, force: bool, j: Journal, env: Env)
    ensures var r := Remove(c, force, j, env);
            var k := r.journal;
            r.failure.None? <==>
              || (k[|k| - 1].Erased? && |k| == |j| + 3 && env.write(|k| - 1).Written?)
              || (!Readable(c.name, j, env) && env.read(|j|).notFound)
  {
    hide Remove, Records;
    RemoveIs(c, force, j, env);
  }
}
