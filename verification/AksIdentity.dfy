/**
 The Azure driver inside the lifecycle: the resource group and location of a cluster are fixed by
 its first saved metadata, while its status is forgotten by every update.
 */
module AksIdentity {
  import opened Base
  import opened DriverOptions
  import opened OptionMaps
  import opened AksState
  import opened Lifecycle
  import opened Runs
  import Attempts
  import Recovery

  const GROUP := "resource-group"
  const LOCATION := "location"

  /** What the driver gets from libraries and from the cloud: validation of a state (it parses an
      ssh key), json.Marshal, and the outcome of everything after the state was saved. */
  datatype Cloud = Cloud(validate: State -> Option<string>, marshal: State -> string, outcome: nat -> Option<string>)

  /** storeState on an info without metadata. */
  function StoreState(cloud: Cloud, s: State): (r: map<string, string>) {
    map[STATE := cloud.marshal(s), GROUP := s.text(ResourceGroup), LOCATION := s.text(TextField.Location)]
  }

  /** createOrUpdate: no info when the options are invalid; else a new info holding nothing but the
      saved state, whatever the outcome. */
  function CreateOrUpdate(cloud: Cloud, now: nat, o: Options): (r: CreateReply) {
    var s := StateFromOptions(o);
    if cloud.validate(s).Some? then CreateReply(None, cloud.validate(s))
    else CreateReply(Some(NoInfo.(metadata := StoreState(cloud, s))), cloud.outcome(now))
  }

  function UpdateReply(made: CreateReply): (r: Result<Info, string>) {
    if made.failure.Some? then Err(made.failure.value)
    else if made.info.Some? then Ok(made.info.value)
    else Err("")
  }

  /** The driver of the environment is the Azure one: PostCheck fills in credentials and keeps
      metadata and status; backups are not implemented. */
  ghost predicate IsAks(env: Env, cloud: Cloud) {
    && (forall t, o, prior :: env.create(t, o, prior) == CreateOrUpdate(cloud, t, o))
    && (forall t, info, o :: env.update(t, info, o) == UpdateReply(CreateOrUpdate(cloud, t, o)))
    && (forall t, info: Info :: env.postCheck(t, info).Ok? ==>
          && env.postCheck(t, info).value.metadata == info.metadata
          && env.postCheck(t, info).value.status == info.status)
    && (forall t, info, o, snapshot :: env.etcdRestore(t, info, o, snapshot).Err?)
  }

  /** The resource group and location a cluster lives in. */
  datatype Place = Place(group: string, location: string)

  predicate Pinned(info: Info, p: Place) {
    && GROUP in info.metadata && info.metadata[GROUP] == p.group
    && LOCATION in info.metadata && info.metadata[LOCATION] == p.location
  }

  /** The place a driver call works on, as the driver reads it from its options. */
  function PlaceOf(o: Options): (r: Place) {
    Place(StateFromOptions(o).text(ResourceGroup), StateFromOptions(o).text(TextField.Location))
  }

  predicate Anchored(j: Journal, n: string, p: Place) {
    n in Records(j) && Pinned(Records(j)[n].info, p)
  }

  /** An interaction that works on the place and leaves it recorded. */
  predicate Stays(e: Event, n: string, p: Place) {
    Subject(e) == n ==>
      match e
      case StatusWritten(rec, applied) => applied ==> Pinned(rec.info, p)
      case Stored(rec, applied) => applied ==> Pinned(rec.info, p)
      case Erased(_, _) => false
      case CreateCalled(_, o, _, _) => PlaceOf(o) == p
      case UpdateCalled(_, o, _, _) => PlaceOf(o) == p
      case _ => true
  }

  predicate StaysSince(j: Journal, k: Journal, n: string, p: Place) {
    j <= k && forall i :: |j| <= i < |k| ==> Stays(k[i], n, p)
  }

  lemma {:induction false} RemainsAnchored(j: Journal, k: Journal, n: string, p: Place)
    requires Anchored(j, n, p) && StaysSince(j, k, n, p)
    ensures Anchored(k, n, p)
    decreases |k|
  {
    if |k| > |j| {
      var before := k[..|k| - 1];
      assert forall i :: |j| <= i < |before| ==> before[i] == k[i];
      RemainsAnchored(j, before, n, p);
    } else {
      assert j == k;
    }
  }

  /** Whatever the configuration and the saved state say, the driver reads the pinned place. */
  lemma OptionsKeepPlace(o: Options, p: Place)
    requires GROUP in o.strings && o.strings[GROUP] == p.group
    requires LOCATION in o.strings && o.strings[LOCATION] == p.location
    ensures PlaceOf(o) == p
  {
    assert TextAliases(ResourceGroup)[0] == GROUP;
    assert TextAliases(TextField.Location)[0] == LOCATION;
  }

  lemma PinnedOptions(c: Record, config: Options, now: nat, env: Env, p: Place)
    requires Pinned(c.info, p)
    ensures PlaceOf(CreateOptions(config, c.info.metadata)) == p
    ensures PlaceOf(DriverOptionsOf(c, config, now, env)) == p
  {
    hide PlaceOf, Merged, SavedLayer;
    OptionsKeepPlace(CreateOptions(config, c.info.metadata), p);
    var saved := SavedState(c.info.metadata, now, env);
    UpdatePriorities(Style(TAGS, env.show), config, c.name, c.info.metadata, saved);
    assert GROUP != STATE && LOCATION != STATE;
    OptionsKeepPlace(DriverOptionsOf(c, config, now, env), p);
  }

  lemma CreateOrUpdatePins(cloud: Cloud, now: nat, o: Options)
    ensures var r := CreateOrUpdate(cloud, now, o); r.info.Some? ==> Pinned(r.info.value, PlaceOf(o)) && r.info.value.status.Blank?
  {
    hide StateFromOptions;
    assert STATE != GROUP && STATE != LOCATION && GROUP != LOCATION;
  }

  /** What a create or update of the driver replies: an error alone when the options are invalid; else
      exactly the saved state and the place, with an empty status, whatever becomes of the rest, and
      beside it the error of the rest; an update drops the information beside an error. */
  lemma DriverReplies(cloud: Cloud, now: nat, o: Options)
    ensures var s := StateFromOptions(o);
            var r := CreateOrUpdate(cloud, now, o);
            if cloud.validate(s).Some? then r.info.None? && r.failure == cloud.validate(s) && UpdateReply(r) == Err(r.failure.value)
            else
              && r.info.Some? && r.failure == cloud.outcome(now)
              && r.info.value.metadata == map["state" := cloud.marshal(s), "resource-group" := s.text(ResourceGroup),
                                              "location" := s.text(TextField.Location)]
              && r.info.value.(metadata := map[]) == NoInfo
              && UpdateReply(r) == if r.failure.Some? then Err(r.failure.value) else Ok(r.info.value)
  {
    hide StateFromOptions;
  }

  lemma CheckStays(c: Record, j: Journal, env: Env, cloud: Cloud, p: Place)
    requires IsAks(env, cloud) && Pinned(c.info, p)
    ensures StaysSince(j, CheckAndStore(c, j, env).journal, c.name, p)
    ensures Pinned(CheckAndStore(c, j, env).handle.info, p)
  {
    hide CreateOrUpdate, UpdateReply, PlaceOf, Records;
  }

  lemma PostCheckStays(c: Record, j: Journal, env: Env, cloud: Cloud, p: Place)
    requires IsAks(env, cloud) && Pinned(c.info, p)
    ensures StaysSince(j, PostCheck(c, j, env).journal, c.name, p)
    ensures Pinned(PostCheck(c, j, env).handle.info, p)
  {
    hide IsAks, CheckAndStore, PlaceOf, Records;
    CheckStays(c, PersistStatus(c, PostChecking, j, env).journal, env, cloud, p);
  }

  /** A record that is read gives the place; one that cannot be read leaves the handle alone. */
  lemma RestorePins(c: Record, j: Journal, env: Env, p: Place)
    requires Anchored(j, c.name, p)
    ensures var restored := Restore(c, j, env);
            && restored.journal == j + [Read(c.name)] && Anchored(restored.journal, c.name, p)
            && (env.read(|j|).readable <==> restored.failure.None?)
            && (restored.failure.None? ==> Pinned(restored.handle.info, p))
            && (restored.failure.Some? ==> restored.handle == c)
  {
  }

  lemma CallCreateStays(c: Record, opts: Options, prior: Option<Info>, j: Journal, env: Env, cloud: Cloud, p: Place)
    requires IsAks(env, cloud) && Pinned(c.info, p) && PlaceOf(opts) == p
    ensures StaysSince(j, CallCreate(c, opts, prior, j, env).journal, c.name, p)
    ensures Pinned(CallCreate(c, opts, prior, j, env).handle.info, p)
  {
    hide CreateOrUpdate, PlaceOf;
    CreateOrUpdatePins(cloud, |j|, opts);
  }

  lemma CreateWithDriverStays(c: Record, prior: Option<Info>, j: Journal, env: Env, cloud: Cloud, p: Place)
    requires IsAks(env, cloud) && Pinned(c.info, p)
    ensures StaysSince(j, CreateWithDriver(c, prior, j, env).journal, c.name, p)
    ensures Pinned(CreateWithDriver(c, prior, j, env).handle.info, p)
  {
    hide CallCreate, CreateOptions, IsAks, PlaceOf;
    var pre := PersistStatus(c, PreCreating, j, env);
    var config, j1 := env.config(|pre.journal|), Log(pre.journal, Configured(c.name));
    var mid := PersistStatus(c, Creating, j1, env);
    if pre.failure.None? && config.Ok? && mid.failure.None? {
      PinnedOptions(c, config.value, 0, env, p);
      CallCreateStays(c, CreateOptions(config.value, c.info.metadata), prior, mid.journal, env, cloud, p);
    }
  }

  lemma CreateInnerStays(c: Record, j: Journal, env: Env, cloud: Cloud, p: Place)
    requires IsAks(env, cloud) && Anchored(j, c.name, p) && (env.read(|j|).readable || Pinned(c.info, p))
    ensures StaysSince(j, CreateInner(c, j, env).journal, c.name, p)
    ensures Pinned(CreateInner(c, j, env).handle.info, p)
  {
    hide IsAks, Restore, CreateWithDriver, PostCheck, PlaceOf, Records, Pinned;
    RestorePins(c, j, env, p);
    var restored := Restore(c, j, env);
    var c1 := restored.handle;
    if !Settled(c1.info.status) {
      var prior := if c1.info.status.Error? then Some(c1.info) else None;
      CreateWithDriverStays(c1, prior, restored.journal, env, cloud, p);
      var created := CreateWithDriver(c1, prior, restored.journal, env);
      PostCheckStays(created.handle, created.journal, env, cloud, p);
    }
  }

  /** After how many interactions a create has moved the record of a cluster away from its place, if
      it does: the handle holds another place, and is written over the record, either because it
      shows an interrupted create, or because the record cannot be read. */
  function FirstMove(c: Record, j: Journal, env: Env, p: Place): (r: Option<nat>) {
    if Pinned(c.info, p) then None
    else if Interrupted(c) && env.write(|j|).Applied() then Some(1)
    else
      var q := if Interrupted(c) then 1 else 0;
      if env.read(|j| + q).readable then None
      else if env.write(|j| + q + 1).Applied() then Some(q + 2)
      else if !Settled(c.info.status) && env.write(|j| + q + 2).Applied() then Some(q + 3)
      else None
  }

  /** The first status a create writes when it goes by its handle alone. */
  function FirstStatus(c: Record): (s: Status) {
    if Settled(c.info.status) then Status.Running else PreCreating
  }

  lemma UnreadInner(c: Record, j: Journal, env: Env)
    requires !env.read(|j|).readable
    ensures var r := CreateInner(c, j, env);
            if Settled(c.info.status) then r == Act(j + [Read(c.name)], c, Some(ClusterExists))
            else
              var e := StatusWritten(WithStatus(c, PreCreating), env.write(|j| + 1).Applied());
              && j + [Read(c.name)] + [e] <= r.journal
              && (env.write(|j| + 1).Lost? ==> r == Act(j + [Read(c.name)] + [e], c, Some(StoreFailure(false))))
  {
    hide PostCheck, CallCreate, CreateOptions, Records, Apply;
  }

  /** The writes of a create that cannot read the record. */
  lemma UnreadCreate(c: Record, j: Journal, env: Env)
    requires !env.read(|Attempts.Marked(c, j, env)|).readable
    ensures var m, k := Attempts.Marked(c, j, env), Create(c, j, env).journal;
            var e := StatusWritten(WithStatus(c, FirstStatus(c)), env.write(|m| + 1).Applied());
            && m + [Read(c.name)] + [e] <= k
            && (Settled(c.info.status) ==> k == m + [Read(c.name)] + [e])
            && (!Settled(c.info.status) && env.write(|m| + 1).Lost? ==>
                  k == m + [Read(c.name)] + [e] + [StatusWritten(WithStatus(c, Status.Error), env.write(|m| + 2).Applied())])
  {
    hide CreateInner, Records, Apply;
    UnreadInner(c, Attempts.Marked(c, j, env), env);
  }

  lemma CreateStays(c: Record, j: Journal, env: Env, cloud: Cloud, p: Place)
    requires IsAks(env, cloud) && Anchored(j, c.name, p) && FirstMove(c, j, env, p).None?
    ensures StaysSince(j, Create(c, j, env).journal, c.name, p)
  {
    hide IsAks, CreateInner, PlaceOf, Records;
    var m := Attempts.Marked(c, j, env);
    RemainsAnchored(j, m, c.name, p);
    if env.read(|m|).readable || Pinned(c.info, p) {
      CreateInnerStays(c, m, env, cloud, p);
    } else {
      hide Create;
      UnreadCreate(c, j, env);
    }
  }

  lemma WrittenElsewhere(j: Journal, c: Record, s: Status, p: Place)
    requires !Pinned(c.info, p)
    ensures !Anchored(j + [StatusWritten(WithStatus(c, s), true)], c.name, p)
  {
    assert Log(j, StatusWritten(WithStatus(c, s), true)) == j + [StatusWritten(WithStatus(c, s), true)];
  }

  /** A create moves the record away right there, and stays at the place until then. */
  lemma CreateMoves(c: Record, j: Journal, env: Env, p: Place)
    requires FirstMove(c, j, env, p).Some?
    ensures var k, x := Create(c, j, env).journal, FirstMove(c, j, env, p).value;
            && 1 <= x && |j| + x <= |k|
            && !Anchored(k[..|j| + x], c.name, p)
            && StaysSince(j, k[..|j| + x - 1], c.name, p)
  {
    hide Create, CreateInner, Records, Anchored;
    var m, k, x := Attempts.Marked(c, j, env), Create(c, j, env).journal, FirstMove(c, j, env, p).value;
    MarkedFirst(c, j, env);
    if Interrupted(c) && env.write(|j|).Applied() {
      WrittenElsewhere(j, c, Init, p);
      assert k[..|j| + x] == j + [StatusWritten(WithStatus(c, Init), true)];
    } else {
      UnreadCreate(c, j, env);
      var e := StatusWritten(WithStatus(c, FirstStatus(c)), env.write(|m| + 1).Applied());
      var k2 := m + [Read(c.name)] + [e];
      if env.write(|m| + 1).Applied() {
        WrittenElsewhere(m + [Read(c.name)], c, FirstStatus(c), p);
        assert k[..|j| + x] == k2;
      } else {
        WrittenElsewhere(k2, c, Status.Error, p);
        assert k[..|j| + x] == k;
      }
    }
  }

  lemma MarkedFirst(c: Record, j: Journal, env: Env)
    ensures Attempts.Marked(c, j, env) <= Create(c, j, env).journal
    ensures Attempts.Marked(c, j, env) ==
            if Interrupted(c) then j + [StatusWritten(WithStatus(c, Init), env.write(|j|).Applied())] else j
  {
    hide CreateInner, Records, Apply;
  }

  lemma WithDriverStays(c: Record, opts: Options, snapshot: string, j: Journal, env: Env, cloud: Cloud, p: Place)
    requires IsAks(env, cloud) && Pinned(c.info, p) && PlaceOf(opts) == p
    ensures StaysSince(j, UpdateWithDriver(c, opts, j, env).journal, c.name, p)
    ensures StaysSince(j, RestoreWithDriver(c, opts, snapshot, j, env).journal, c.name, p)
  {
    hide PostCheck, CreateOrUpdate, PlaceOf;
    CreateOrUpdatePins(cloud, |j|, opts);
    var updated := env.update(|j|, c.info, opts);
    if updated.Ok? {
      PostCheckStays(c.(info := updated.value), Log(j, UpdateCalled(c.name, opts, c.info, updated)), env, cloud, p);
    }
  }

  lemma GenerateStays(c: Record, j: Journal, env: Env, cloud: Cloud, p: Place)
    requires IsAks(env, cloud) && Anchored(j, c.name, p)
    ensures StaysSince(j, GenerateServiceAccount(c, j, env).journal, c.name, p)
  {
    hide IsAks, Restore, CheckAndStore, PlaceOf, Records;
    RestorePins(c, j, env, p);
    var restored := Restore(c, j, env);
    if restored.failure.None? {
      CheckStays(restored.handle, PersistStatus(restored.handle, Updating, restored.journal, env).journal, env, cloud, p);
    }
  }

  /** The task is no create that gets as far as moving the record away. */
  predicate SpoilsNothing(t: Task, j: Journal, env: Env, p: Place) {
    t.call.CreateCall? && FirstMove(t.call.handle, j, env, p).Some? ==>
      t.stop.Some? && t.stop.value < FirstMove(t.call.handle, j, env, p).value
  }

  lemma TaskStays(t: Task, j: Journal, env: Env, cloud: Cloud, n: string, p: Place)
    requires IsAks(env, cloud) && Anchored(j, n, p)
    requires t.call.handle.name == n ==> !t.call.RemoveCall? && SpoilsNothing(t, j, env, p)
    ensures StaysSince(j, After(t, j, env), n, p)
  {
    hide IsAks, Create, Update, GenerateServiceAccount, EtcdRestore, FirstMove, Anchored, Stays;
    if t.call.handle.name == n {
      match t.call
      case CreateCall(c) =>
        if FirstMove(c, j, env, p).None? {
          CreateStays(c, j, env, cloud, p);
        } else {
          CreateMoves(c, j, env, p);
        }
      case UpdateCall(c) => UpdateStays(c, j, env, cloud, p);
      case GenerateCall(c) => GenerateStays(c, j, env, cloud, p);
      case EtcdRestoreCall(c, snapshot) => EtcdRestoreStays(c, snapshot, j, env, cloud, p);
    } else {
      OthersStay(t, j, env, n, p);
    }
  }

  lemma OthersStay(t: Task, j: Journal, env: Env, n: string, p: Place)
    requires t.call.handle.name != n
    ensures StaysSince(j, After(t, j, env), n, p)
  {
    hide After;
  }

  lemma UpdateStays(c: Record, j: Journal, env: Env, cloud: Cloud, p: Place)
    requires IsAks(env, cloud) && Anchored(j, c.name, p)
    ensures StaysSince(j, Update(c, j, env).journal, c.name, p)
  {
    hide IsAks, Restore, Create, UpdateWithDriver, DriverOptionsOf, PlaceOf, Records;
    RestorePins(c, j, env, p);
    var restored := Restore(c, j, env);
    var c1, now := restored.handle, |restored.journal|;
    var config, j1 := env.config(now), Log(restored.journal, Configured(c.name));
    if restored.failure.Some? {
    } else if c1.info.status.Error? {
      CreateStays(c1, restored.journal, env, cloud, p);
    } else if config.Ok? {
      PinnedOptions(c1, config.value, now, env, p);
      var marked := PersistStatus(c1, Updating, j1, env);
      WithDriverStays(c1, DriverOptionsOf(c1, config.value, now, env), "", marked.journal, env, cloud, p);
    }
  }

  lemma EtcdRestoreStays(c: Record, snapshot: string, j: Journal, env: Env, cloud: Cloud, p: Place)
    requires IsAks(env, cloud) && Anchored(j, c.name, p)
    ensures StaysSince(j, EtcdRestore(c, snapshot, j, env).journal, c.name, p)
  {
    hide IsAks, Restore, RestoreWithDriver, DriverOptionsOf, PlaceOf, Records;
    RestorePins(c, j, env, p);
    var restored := Restore(c, j, env);
    var c1, now := restored.handle, |restored.journal|;
    var config, j1 := env.config(now), Log(restored.journal, Configured(c.name));
    if restored.failure.None? && config.Ok? {
      PinnedOptions(c1, config.value, now, env, p);
      var marked := PersistStatus(c1, Updating, j1, env);
      WithDriverStays(c1, DriverOptionsOf(c1, config.value, now, env), snapshot, marked.journal, env, cloud, p);
    }
  }

  /** No task of the run spoils the record, each seen where it starts. */
  predicate NeverSpoilt(ts: seq<Task>, j: Journal, env: Env, n: string, p: Place) {
    ts != [] ==>
      && (ts[0].call.handle.name == n ==> SpoilsNothing(ts[0], j, env, p))
      && NeverSpoilt(ts[1..], After(ts[0], j, env), env, n, p)
  }

  lemma {:induction false} RunStays(ts: seq<Task>, j: Journal, env: Env, cloud: Cloud, n: string, p: Place)
    requires IsAks(env, cloud) && Anchored(j, n, p) && NoRemoval(ts, n) && NeverSpoilt(ts, j, env, n, p)
    ensures StaysSince(j, Run(ts, j, env), n, p)
    decreases |ts|
  {
    hide IsAks, Anchored, Stays, SpoilsNothing, After;
    if ts != [] {
      var j1 := After(ts[0], j, env);
      TaskStays(ts[0], j, env, cloud, n, p);
      RemainsAnchored(j, j1, n, p);
      RunStays(ts[1..], j1, env, cloud, n, p);
    }
  }

  lemma TaskMoves(t: Task, j: Journal, env: Env, p: Place) returns (i: nat)
    requires !SpoilsNothing(t, j, env, p)
    ensures |j| <= i <= |After(t, j, env)| && !Anchored(After(t, j, env)[..i], t.call.handle.name, p)
  {
    hide Create, Anchored, FirstMove;
    CreateMoves(t.call.handle, j, env, p);
    i := |j| + FirstMove(t.call.handle, j, env, p).value;
    assert After(t, j, env)[..i] == Create(t.call.handle, j, env).journal[..i];
  }

  /** A run that spoils the record leaves the place at some moment. */
  lemma {:induction false} RunMoves(ts: seq<Task>, j: Journal, env: Env, cloud: Cloud, n: string, p: Place) returns (i: nat)
    requires IsAks(env, cloud) && Anchored(j, n, p) && NoRemoval(ts, n) && !NeverSpoilt(ts, j, env, n, p)
    ensures |j| <= i <= |Run(ts, j, env)| && !Anchored(Run(ts, j, env)[..i], n, p)
    decreases |ts|
  {
    hide IsAks, Anchored, Stays, SpoilsNothing, After;
    var j1 := After(ts[0], j, env);
    if ts[0].call.handle.name == n && !SpoilsNothing(ts[0], j, env, p) {
      i := TaskMoves(ts[0], j, env, p);
      assert Run(ts, j, env)[..i] == j1[..i];
    } else {
      TaskStays(ts[0], j, env, cloud, n, p);
      RemainsAnchored(j, j1, n, p);
      i := RunMoves(ts[1..], j1, env, cloud, n, p);
    }
  }

  /** Once a record holds a resource group and location, then until the cluster is removed, and
      whatever the configurations, failures and stops: the record holds them at every moment if and
      only if no create on a handle that holds another place gets it written over the record, and
      then every create and update that reaches the driver works on that same place. */
  lemma PlaceIsFixed(ts: seq<Task>, j: Journal, env: Env, cloud: Cloud, n: string, p: Place)
    requires IsAks(env, cloud) && Anchored(j, n, p) && NoRemoval(ts, n)
    ensures var k := Run(ts, j, env);
            && ((forall i :: |j| <= i <= |k| ==> Anchored(k[..i], n, p)) <==> NeverSpoilt(ts, j, env, n, p))
            && (NeverSpoilt(ts, j, env, n, p) ==>
                  forall i :: |j| <= i < |k| && Subject(k[i]) == n && (k[i].CreateCalled? || k[i].UpdateCalled?) ==>
                    PlaceOf(k[i].opts) == p)
  {
    hide IsAks, NoRemoval, NeverSpoilt, PlaceOf, Run, Anchored;
    var k := Run(ts, j, env);
    if NeverSpoilt(ts, j, env, n, p) {
      RunStays(ts, j, env, cloud, n, p);
      forall i | |j| <= i <= |k| ensures Anchored(k[..i], n, p) {
        RemainsAnchored(j, k[..i], n, p);
      }
    } else {
      var i := RunMoves(ts, j, env, cloud, n, p);
    }
  }

  /** When present records can be read, all it takes is that no create on a handle that shows an
      interrupted create and holds another place gets its first write through. */
  lemma SpoiltWhenRead(t: Task, j: Journal, env: Env, p: Place)
    requires ReadsBack(env)
    ensures SpoilsNothing(t, j, env, p) <==>
              (t.call.CreateCall? && Interrupted(t.call.handle) && !Pinned(t.call.handle.info, p) && env.write(|j|).Applied() ==>
                 t.stop == Some(0))
  {
    hide Pinned;
  }

  /** The Azure driver breaks the premise of Runs.CreatedOnce: its update replies with an empty
      status, so after any update that succeeds on an established cluster the record has an empty
      status, and a create with a handle of its own calls Driver.Create again. */
  lemma UpdateForgetsStatus(c: Record, driverName: string, j: Journal, env: Env, cloud: Cloud)
    requires IsAks(env, cloud) && Established(j, c.name) && Update(c, j, env).failure.None?
    requires ReadsBack(env) && Attempts.AlwaysWrites(env) && Attempts.AlwaysConfigured(env)
    ensures var k := Update(c, j, env).journal;
            && c.name in Records(k) && Records(k)[c.name].info.status.Blank?
            && Attempts.CreatesBetween(k, Create(Attempts.NewHandle(c.name, driverName), k, env).journal, c.name)
  {
    hide IsAks, Update, Create, UpdateWithDriver, Records, Attempts.CreatesBetween;
    Recovery.UpdateThenCreate(c, driverName, j, env);
    var c1, opts, j1 := UpdateAsksDriver(c, j, env);
    UpdateBlank(c1, opts, j1, env, cloud);
  }

  /** An update that succeeds on an established cluster is one that the driver was asked for. */
  lemma UpdateAsksDriver(c: Record, j: Journal, env: Env) returns (c1: Record, opts: Options, j1: Journal)
    requires Established(j, c.name) && Update(c, j, env).failure.None? && ReadsBack(env)
    ensures c1.name == c.name && Update(c, j, env) == UpdateWithDriver(c1, opts, j1, env)
  {
    hide DriverOptionsOf, UpdateWithDriver, Create;
    var restored := Restore(c, j, env);
    var now := |restored.journal|;
    c1, opts := restored.handle, DriverOptionsOf(restored.handle, env.config(now).value, now, env);
    j1 := PersistStatus(c1, Updating, Log(restored.journal, Configured(c.name)), env).journal;
  }

  lemma UpdateBlank(c: Record, opts: Options, j: Journal, env: Env, cloud: Cloud)
    requires IsAks(env, cloud) && UpdateWithDriver(c, opts, j, env).failure.None?
    ensures var k := UpdateWithDriver(c, opts, j, env).journal; c.name in Records(k) && Records(k)[c.name].info.status.Blank?
  {
    hide CreateOrUpdate, StateFromOptions;
    CreateOrUpdatePins(cloud, |j|, opts);
  }
}
