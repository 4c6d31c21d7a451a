/**
 Attempts to create a cluster: when the driver is asked, what it is told about earlier attempts, and
 what failed ones leave behind.
 */
module Attempts {
  import opened Base
  import opened DriverOptions
  import opened OptionMaps
  import opened Lifecycle
  import opened Runs

  /** The handle a service call makes for itself. */
  function NewHandle(n: string, driverName: string): (r: Record) {
    Record(n, driverName, NoInfo)
  }

  ghost predicate AlwaysWrites(env: Env) {
    forall t :: env.write(t).Written?
  }

  ghost predicate AlwaysConfigured(env: Env) {
    forall t :: env.config(t).Ok?
  }

  predicate CallsDriver(e: Event) {
    e.CreateCalled? || e.UpdateCalled? || e.PostCheckCalled? || e.RestoreCalled? || e.RemoveCalled?
  }

  /** Driver.Create is called for the cluster between two journals. */
  ghost predicate CreatesBetween(j: Journal, k: Journal, n: string) {
    exists i :: |j| <= i < |k| && k[i].CreateCalled? && k[i].name == n
  }

  /** The last information Driver.Create gave for the cluster, with or without an error. */
  function LastCreated(j: Journal, n: string): (r: Option<Info>) {
    if j == [] then None
    else
      match j[|j| - 1]
      case CreateCalled(m, _, _, CreateReply(Some(info), _)) => if m == n then Some(info) else LastCreated(j[..|j| - 1], n)
      case _ => LastCreated(j[..|j| - 1], n)
  }

  lemma LoggedCreated(j: Journal, e: Event, n: string)
    ensures LastCreated(Log(j, e), n) ==
            if e.CreateCalled? && e.name == n && e.created.info.Some? then e.created.info else LastCreated(j, n)
  {
    assert (j + [e])[..|j|] == j;
  }

  // ---------------------------------------------------------------- when the driver is asked

  /** The journal when createInner starts: the status of an interrupted create was written first. */
  function Marked(c: Record, j: Journal, env: Env): (k: Journal)
    ensures Grown(j, k, c.name)
  {
    if Interrupted(c) then PersistStatus(c, Init, j, env).journal else j
  }

  /** What createInner goes by: the record when there is one that can be read just then, else the
      handle as it is. */
  function Seen(c: Record, j: Journal, env: Env): (r: Info) {
    if c.name in Records(j) && env.read(|j|).readable then Records(j)[c.name].info else c.info
  }

  /** The two status writes and the configuration in front of Driver.Create all succeed. */
  predicate Clear(now: nat, env: Env) {
    env.write(now).Written? && env.config(now + 1).Ok? && env.write(now + 2).Written?
  }

  /** Every Driver.Create between two journals is told this about earlier attempts. */
  ghost predicate Told(j: Journal, k: Journal, prior: Option<Info>) {
    forall i :: |j| <= i < |k| && k[i].CreateCalled? ==> k[i].prior == prior
  }

  lemma BetweenSplits(j: Journal, k: Journal, m: Journal, n: string)
    requires j <= k <= m
    ensures CreatesBetween(j, m, n) <==> CreatesBetween(j, k, n) || CreatesBetween(k, m, n)
  {
    if CreatesBetween(j, k, n) {
      var i :| |j| <= i < |k| && k[i].CreateCalled? && k[i].name == n;
      assert m[i] == k[i];
    }
    if i :| |j| <= i < |m| && m[i].CreateCalled? && m[i].name == n {
      assert i < |k| ==> k[i] == m[i];
    }
  }

  lemma ToldSplits(j: Journal, k: Journal, m: Journal, prior: Option<Info>)
    requires j <= k <= m
    ensures Told(j, m, prior) <==> Told(j, k, prior) && Told(k, m, prior)
  {
    assert forall i :: |j| <= i < |k| ==> k[i] == m[i];
  }

  lemma NeverCreates(j: Journal, k: Journal, n: string, prior: Option<Info>)
    requires forall i :: |j| <= i < |k| ==> !k[i].CreateCalled?
    ensures !CreatesBetween(j, k, n) && Told(j, k, prior)
  {
  }

  lemma StepsAsk(c: Record, prior: Option<Info>, j: Journal, env: Env)
    ensures CreatesBetween(j, CreateSteps(c, prior, j, env).journal, c.name) <==> Clear(|j|, env)
    ensures Told(j, CreateSteps(c, prior, j, env).journal, prior)
  {
    hide CreateOptions, Records;
    var k := CreateSteps(c, prior, j, env).journal;
    if Clear(|j|, env) {
      assert k[|j| + 3].CreateCalled? && k[|j| + 3].name == c.name;
    }
  }

  lemma RestoreSees(c: Record, j: Journal, env: Env)
    ensures var restored := Restore(c, j, env);
            restored.handle == c.(info := Seen(c, j, env)) && restored.journal == j + [Read(c.name)]
  {
  }

  lemma PostCheckNeverCreates(c: Record, j: Journal, env: Env)
    ensures forall i :: |j| <= i < |PostCheck(c, j, env).journal| ==> !PostCheck(c, j, env).journal[i].CreateCalled?
  {
    hide Records, Apply;
  }

  /** The earlier attempt as createInner passes it on. */
  function PriorOf(seen: Info): (r: Option<Info>) {
    if seen.status.Error? then Some(seen) else None
  }

  lemma InnerAsks(c: Record, j: Journal, env: Env)
    ensures var seen, k := Seen(c, j, env), CreateInner(c, j, env).journal;
            && (CreatesBetween(j, k, c.name) <==> !Settled(seen.status) && Clear(|j| + 1, env))
            && Told(j, k, PriorOf(seen))
  {
    hide Restore, CreateSteps, PostCheck, Seen, Clear, CreatesBetween, Told, Records;
    var k, c1, prior := CreateInner(c, j, env).journal, c.(info := Seen(c, j, env)), PriorOf(Seen(c, j, env));
    var j1 := j + [Read(c.name)];
    RestoreSees(c, j, env);
    NeverCreates(j, j1, c.name, prior);
    if !Settled(c1.info.status) {
      var steps := CreateSteps(c1, prior, j1, env);
      StepsAsk(c1, prior, j1, env);
      PostCheckNeverCreates(steps.handle, steps.journal, env);
      NeverCreates(steps.journal, k, c.name, prior);
      BetweenSplits(j1, steps.journal, k, c.name);
      ToldSplits(j1, steps.journal, k, prior);
      BetweenSplits(j, j1, k, c.name);
      ToldSplits(j, j1, k, prior);
    }
  }

  /** For every handle, store and world: a create calls Driver.Create if and only if what createInner
      goes by has no settled status and the way to the driver is clear; and the driver is told about
      an earlier attempt if and only if the status gone by is Error, and then all that was recorded. */
  lemma CreateAsks(c: Record, j: Journal, env: Env)
    ensures var m, k := Marked(c, j, env), Create(c, j, env).journal;
            var seen := Seen(c, m, env);
            && (CreatesBetween(j, k, c.name) <==> !Settled(seen.status) && Clear(|m| + 1, env))
            && Told(j, k, PriorOf(seen))
  {
    hide CreateInner, Seen, Clear, CreatesBetween, Told, Records;
    var m, k := Marked(c, j, env), Create(c, j, env).journal;
    var inner, prior := CreateInner(c, m, env).journal, PriorOf(Seen(c, m, env));
    InnerAsks(c, m, env);
    NeverCreates(j, m, c.name, prior);
    NeverCreates(inner, k, c.name, prior);
    BetweenSplits(j, m, k, c.name);
    BetweenSplits(m, inner, k, c.name);
    ToldSplits(j, m, k, prior);
    ToldSplits(m, inner, k, prior);
  }

  /** When no write and no configuration fails, a create calls Driver.Create exactly when: the handle
      shows an interrupted create and the record cannot be read back, or it shows none and the status
      gone by is not a settled one. */
  lemma CreateCallsDriver(c: Record, j: Journal, env: Env)
    requires AlwaysWrites(env) && AlwaysConfigured(env)
    ensures CreatesBetween(j, Create(c, j, env).journal, c.name) <==>
              if Interrupted(c) then !env.read(|j| + 1).readable else !Settled(Seen(c, j, env).status)
  {
    hide Create, CreatesBetween, Told;
    CreateAsks(c, j, env);
  }

  /** A record that cannot be read just then is passed over: a create of an established cluster with
      a handle of its own calls Driver.Create again, exactly when the way is clear. */
  lemma UnreadRecordIsCreatedAgain(n: string, driverName: string, j: Journal, env: Env)
    requires Established(j, n)
    ensures CreatesBetween(j, Create(NewHandle(n, driverName), j, env).journal, n) <==>
              !env.read(|j|).readable && Clear(|j| + 1, env)
  {
    hide Create, CreatesBetween, Told, Clear;
    CreateAsks(NewHandle(n, driverName), j, env);
  }

  /** With a record that can be read and a handle that shows no interrupted create, Driver.Create is
      told about an earlier attempt if and only if the recorded status is Error. */
  lemma PriorIsGivenAfterFailure(c: Record, j: Journal, env: Env)
    requires c.name in Records(j) && env.read(|j|).readable && !Interrupted(c)
    ensures Told(j, Create(c, j, env).journal, PriorOf(Records(j)[c.name].info))
  {
    hide Create, CreatesBetween, Told, Clear;
    CreateAsks(c, j, env);
  }

  /** So a create that was interrupted, and is tried again, is not told about: the record says
      Pre-Creating or Creating, and Driver.Create, when it is called, is given nothing. */
  lemma InterruptedCreateIsForgotten(c: Record, j: Journal, env: Env)
    requires c.name in Records(j) && env.read(|j|).readable && !Interrupted(c)
    requires Records(j)[c.name].info.status.PreCreating? || Records(j)[c.name].info.status.Creating?
    ensures CreatesBetween(j, Create(c, j, env).journal, c.name) <==> Clear(|j| + 1, env)
    ensures Told(j, Create(c, j, env).journal, None)
  {
    hide Create, CreatesBetween, Told, Clear;
    CreateAsks(c, j, env);
  }

  /** createInner as it would be without the test at the head of create. */
  function CreateInnerUntested(c: Record, j: Journal, env: Env): (r: Act) {
    var restored := Restore(c, j, env);
    var c1 := restored.handle;
    if Settled(c1.info.status) then Act(restored.journal, c1, Some(ClusterExists))
    else
      var created := CreateSteps(c1, PriorOf(c1.info), restored.journal, env);
      if created.failure.Some? then created else PostCheck(created.handle, created.journal, env)
  }

  /** That test never decides: createInner has already returned for the status it looks for. */
  lemma PostCheckTestNeverDecides(c: Record, j: Journal, env: Env)
    ensures CreateInner(c, j, env) == CreateInnerUntested(c, j, env)
  {
    hide Restore, CreateSteps, PostCheck;
  }

  // ---------------------------------------------------------------- failed creates

  /** The last information given by Driver.Create, or none of it. */
  function Remembered(j: Journal, n: string): (r: Info) {
    if LastCreated(j, n).Some? then LastCreated(j, n).value else NoInfo
  }

  /** The record of a cluster whose creates have all failed so far. */
  ghost predicate Remembers(j: Journal, n: string) {
    if n in Records(j) then Records(j)[n].info == Remembered(j, n).(status := Status.Error)
    else LastCreated(j, n).None?
  }

  /** The handles of the two callers: a new one, or one loaded from the record. */
  predicate Fitting(c: Record, j: Journal) {
    c.info == NoInfo || (c.name in Records(j) && c.info == Records(j)[c.name].info)
  }

  /** Driver.Create gives information between two journals. */
  ghost predicate Given(j: Journal, k: Journal, n: string) {
    exists i :: |j| <= i < |k| && k[i].CreateCalled? && k[i].name == n && k[i].created.info.Some?
  }

  /** Interactions other than Driver.Create leave what is remembered alone. */
  lemma {:induction false} StillRemembered(j: Journal, k: Journal, n: string)
    requires j <= k && forall i :: |j| <= i < |k| ==> !k[i].CreateCalled?
    ensures LastCreated(k, n) == LastCreated(j, n)
    decreases |k|
  {
    if |k| > |j| {
      var before := k[..|k| - 1];
      assert forall i :: |j| <= i < |before| ==> before[i] == k[i];
      StillRemembered(j, before, n);
    } else {
      assert j == k;
    }
  }

  lemma GivenSplits(j: Journal, k: Journal, m: Journal, n: string)
    requires j <= k <= m
    ensures Given(j, m, n) <==> Given(j, k, n) || Given(k, m, n)
  {
    if Given(j, k, n) {
      var i :| |j| <= i < |k| && k[i].CreateCalled? && k[i].name == n && k[i].created.info.Some?;
      assert m[i] == k[i];
    }
    if i :| |j| <= i < |m| && m[i].CreateCalled? && m[i].name == n && m[i].created.info.Some? {
      assert i < |k| ==> k[i] == m[i];
    }
  }

  /** The handle holds what was given last, or is as it was. */
  ghost predicate Holds(c: Record, j: Journal, r: Act) {
    if Given(j, r.journal, c.name) then LastCreated(r.journal, c.name) == Some(r.handle.info)
    else r.handle == c && LastCreated(r.journal, c.name) == LastCreated(j, c.name)
  }

  lemma CallHolds(c: Record, opts: Options, prior: Option<Info>, j: Journal, env: Env)
    ensures Holds(c, j, CallCreate(c, opts, prior, j, env))
  {
    hide LastCreated, Records;
    var reply := env.create(|j|, opts, prior);
    LoggedCreated(j, CreateCalled(c.name, opts, prior, reply), c.name);
    var k := CallCreate(c, opts, prior, j, env).journal;
    assert k[|j|] == CreateCalled(c.name, opts, prior, reply);
  }

  lemma StepsHold(c: Record, prior: Option<Info>, j: Journal, env: Env)
    ensures Holds(c, j, CreateSteps(c, prior, j, env))
    ensures CreateSteps(c, prior, j, env).failure.Some? ==> !CreateSteps(c, prior, j, env).failure.value.ClusterExists?
  {
    hide CallCreate, CreateOptions, LastCreated, Records, Given;
    var r := CreateSteps(c, prior, j, env);
    var pre := PersistStatus(c, PreCreating, j, env);
    var config, j1 := env.config(|pre.journal|), Log(pre.journal, Configured(c.name));
    var mid := PersistStatus(c, Creating, j1, env);
    if pre.failure.Some? || config.Err? || mid.failure.Some? {
      StillRemembered(j, r.journal, c.name);
      NothingGiven(j, r.journal, c.name);
    } else {
      StillRemembered(j, mid.journal, c.name);
      NothingGiven(j, mid.journal, c.name);
      var opts := CreateOptions(config.value, c.info.metadata);
      CallHolds(c, opts, prior, mid.journal, env);
      CallFailure(c, opts, prior, mid.journal, env);
      GivenSplits(j, mid.journal, r.journal, c.name);
    }
  }

  lemma NothingGiven(j: Journal, k: Journal, n: string)
    requires forall i :: |j| <= i < |k| ==> !k[i].CreateCalled?
    ensures !Given(j, k, n)
  {
  }

  lemma CallFailure(c: Record, opts: Options, prior: Option<Info>, j: Journal, env: Env)
    ensures var r := CallCreate(c, opts, prior, j, env); r.failure.Some? ==> !r.failure.value.ClusterExists?
  {
  }

  lemma PostCheckFailure(c: Record, j: Journal, env: Env)
    requires PostCheck(c, j, env).failure.Some? && AlwaysWrites(env)
    ensures PostCheck(c, j, env).handle == c && !PostCheck(c, j, env).failure.value.ClusterExists?
  {
    hide Records, Apply;
  }

  lemma InnerHolds(c: Record, j: Journal, env: Env)
    requires AlwaysWrites(env) && !Settled(Seen(c, j, env).status)
    ensures var r := CreateInner(c, j, env);
            r.failure.Some? ==> !r.failure.value.ClusterExists? && Holds(c.(info := Seen(c, j, env)), j, r)
  {
    hide Restore, CreateSteps, PostCheck, Seen, LastCreated, Given, Records;
    var r, c1 := CreateInner(c, j, env), c.(info := Seen(c, j, env));
    var j1, prior := j + [Read(c.name)], PriorOf(c1.info);
    RestoreSees(c, j, env);
    StillRemembered(j, j1, c.name);
    NothingGiven(j, j1, c.name);
    var steps := CreateSteps(c1, prior, j1, env);
    StepsHold(c1, prior, j1, env);
    if r.failure.Some? {
      GivenSplits(j, j1, r.journal, c.name);
      if steps.failure.None? {
        PostCheckFailure(steps.handle, steps.journal, env);
        PostCheckNeverCreates(steps.handle, steps.journal, env);
        StillRemembered(steps.journal, r.journal, c.name);
        NothingGiven(steps.journal, r.journal, c.name);
        GivenSplits(j1, steps.journal, r.journal, c.name);
      }
    }
  }

  lemma FittingIsUnsettled(c: Record, j: Journal, env: Env)
    requires Remembers(j, c.name) && Fitting(c, j)
    ensures !Interrupted(c) && !Settled(Seen(c, j, env).status)
    ensures env.read(|j|).readable ==> Seen(c, j, env).(status := Blank) == Remembered(j, c.name).(status := Blank)
    ensures !env.read(|j|).readable ==> Seen(c, j, env) == c.info
  {
    hide LastCreated;
  }

  lemma FailedCreateEnds(c: Record, j: Journal, env: Env)
    requires AlwaysWrites(env) && !Interrupted(c)
    requires CreateInner(c, j, env).failure.Some? && !CreateInner(c, j, env).failure.value.ClusterExists?
    ensures Create(c, j, env).journal ==
            Log(CreateInner(c, j, env).journal, StatusWritten(WithStatus(CreateInner(c, j, env).handle, Status.Error), true))
  {
    hide CreateInner, Records, Apply;
  }

  lemma FailedCreateFails(c: Record, j: Journal, env: Env)
    requires AlwaysWrites(env) && !Interrupted(c) && Create(c, j, env).failure.Some?
    ensures CreateInner(c, j, env).failure.Some?
  {
    hide CreateInner, Records, Apply;
  }

  lemma FailedCreateWrites(c: Record, j: Journal, env: Env)
    requires AlwaysWrites(env) && !Interrupted(c) && !Settled(Seen(c, j, env).status) && Create(c, j, env).failure.Some?
    ensures var k := Create(c, j, env).journal;
            && c.name in Records(k)
            && Records(k)[c.name].info.status.Error?
            && (Given(j, k, c.name) ==>
                  LastCreated(k, c.name).Some? && Records(k)[c.name].info.(status := Blank) == LastCreated(k, c.name).value.(status := Blank))
            && (!Given(j, k, c.name) ==>
                  && LastCreated(k, c.name) == LastCreated(j, c.name)
                  && Records(k)[c.name].info.(status := Blank) == Seen(c, j, env).(status := Blank))
  {
    hide Create, CreateInner, Seen, LastCreated, Given, Records;
    var inner := CreateInner(c, j, env);
    FailedCreateFails(c, j, env);
    InnerHolds(c, j, env);
    FailedCreateEnds(c, j, env);
    var e := StatusWritten(WithStatus(inner.handle, Status.Error), true);
    LoggedCreated(inner.journal, e, c.name);
    NothingGiven(inner.journal, Log(inner.journal, e), c.name);
    GivenSplits(j, inner.journal, Log(inner.journal, e), c.name);
  }

  /** One more failed create when all writes take effect: the record is, up to status Error, the last
      information Driver.Create ever gave, if and only if the record could be read, or the handle
      held that information, or this very create was given some. */
  lemma FailedCreateRemembers(c: Record, j: Journal, env: Env)
    requires Remembers(j, c.name) && Fitting(c, j) && AlwaysWrites(env) && Create(c, j, env).failure.Some?
    ensures var k := Create(c, j, env).journal;
            && c.name in Records(k)
            && (Remembers(k, c.name) <==>
                  || env.read(|j|).readable
                  || c.info.(status := Blank) == Remembered(j, c.name).(status := Blank)
                  || Given(j, k, c.name))
  {
    hide Create, Seen, LastCreated, Given, Records;
    FittingIsUnsettled(c, j, env);
    FailedCreateWrites(c, j, env);
  }

  /** A create tells Driver.Create what the last attempts left. */
  lemma CreateGivesPrior(c: Record, j: Journal, env: Env)
    requires Remembers(j, c.name) && Fitting(c, j) && env.read(|j|).readable
    ensures Told(j, Create(c, j, env).journal,
                 if c.name in Records(j) then Some(Remembered(j, c.name).(status := Status.Error)) else None)
  {
    hide Create, LastCreated, Told, CreatesBetween, Clear;
    CreateAsks(c, j, env);
  }

  /** Creates one after the other, each with a handle of its own. */
  function Creates(handles: seq<Record>, j: Journal, env: Env): (r: Journal) {
    if handles == [] then j else Creates(handles[1..], Create(handles[0], j, env).journal, env)
  }

  /** They are all of one cluster, with fitting handles, and fail. */
  ghost predicate AllFail(n: string, handles: seq<Record>, j: Journal, env: Env) {
    handles != [] ==>
      && handles[0].name == n && Fitting(handles[0], j)
      && Create(handles[0], j, env).failure.Some?
      && AllFail(n, handles[1..], Create(handles[0], j, env).journal, env)
  }

  /** Across any number of failed creates the record keeps the last information given. */
  lemma {:induction false} FailedCreatesRemember(n: string, handles: seq<Record>, j: Journal, env: Env)
    requires Remembers(j, n) && ReadsBack(env) && AlwaysWrites(env) && AllFail(n, handles, j, env)
    ensures Remembers(Creates(handles, j, env), n)
    ensures handles != [] ==> n in Records(Creates(handles, j, env))
    decreases |handles|
  {
    hide Create, Remembers, Fitting;
    if handles != [] {
      FailedCreateRemembers(handles[0], j, env);
      FailedCreatesRemember(n, handles[1..], Create(handles[0], j, env).journal, env);
    }
  }

  /** From a store that does not know the cluster, after any number (at least one) of failed creates
      the next one gives Driver.Create exactly the last information it ever returned, with status
      Error. */
  lemma NextCreateIsGivenTheLast(n: string, handles: seq<Record>, c: Record, j: Journal, env: Env)
    requires n !in Records(j) && LastCreated(j, n).None?
    requires ReadsBack(env) && AlwaysWrites(env) && AllFail(n, handles, j, env) && handles != []
    requires c.name == n && Fitting(c, Creates(handles, j, env))
    ensures var k := Creates(handles, j, env);
            Told(k, Create(c, k, env).journal, Some(Remembered(k, n).(status := Status.Error)))
  {
    hide Create, Creates, AllFail, Fitting, Told, LastCreated;
    FailedCreatesRemember(n, handles, j, env);
    CreateGivesPrior(c, Creates(handles, j, env), env);
  }
}
