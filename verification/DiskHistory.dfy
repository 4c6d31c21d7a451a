/**
 The on-disk store under the lifecycle: every journal of a run, played on the disk file write by
 file write, keeps the records, the kubeconfig and the index in agreement.
 */
module DiskHistory {
  import opened Base
  import opened Lifecycle
  import opened KubeConfig
  import opened CliStore
  import Runs
  import StoreDiscipline

  /** How one interaction went on disk: the order in which the credential map was visited, and how
      many file writes went through. */
  datatype Step = Step(order: seq<string>, done: nat)

  /** The credential order of a step, when it is one. */
  function OrderFor(c: Record, s: Step): (order: seq<string>)
    ensures forall k :: k in order ==> k in Pems(c)
  {
    if forall k :: k in s.order ==> k in Pems(c) then s.order else []
  }

  function PlanOf(e: Event, s: Step, h: Home, decode: string -> Option<string>): (r: Plan) {
    match e
    case StatusWritten(rec, _) => StatusPlan(rec)
    case Stored(rec, _) => StorePlan(h, rec, OrderFor(rec, s), decode)
    case Erased(name, _) => RemovePlan(h, name)
    case _ => Plan([], true)
  }

  predicate Changes(e: Event) {
    e.StatusWritten? || e.Stored? || e.Erased?
  }

  /** The journal calls an operation effective exactly when all its file writes went through. */
  predicate Accords(e: Event, plan: Plan, done: nat) {
    && done <= |plan.actions|
    && (Changes(e) ==> (e.applied <==> plan.complete && done == |plan.actions|))
  }

  /** A store visits its whole credential map. */
  ghost predicate Ordered(e: Event, s: Step) {
    e.Stored? ==> Lists(s.order, Pems(e.rec).Keys)
  }

  function HomeAfter(j: Journal, steps: seq<Step>, decode: string -> Option<string>): (r: Home)
    requires |steps| == |j|
  {
    if j == [] then EmptyHome
    else
      var h := HomeAfter(j[..|j| - 1], steps[..|j| - 1], decode);
      var plan, done := PlanOf(j[|j| - 1], steps[|j| - 1], h, decode).actions, steps[|j| - 1].done;
      DoAll(h, if done <= |plan| then plan[..done] else plan)
  }

  ghost predicate History(j: Journal, steps: seq<Step>, decode: string -> Option<string>) {
    && |steps| == |j|
    && (j != [] ==>
          var before, told := j[..|j| - 1], steps[..|j| - 1];
          && History(before, told, decode)
          && Ordered(j[|j| - 1], steps[|j| - 1])
          && Accords(j[|j| - 1], PlanOf(j[|j| - 1], steps[|j| - 1], HomeAfter(before, told, decode), decode),
                     steps[|j| - 1].done))
  }

  /** The interaction can follow on disk, in this way. */
  ghost predicate CanFollow(j: Journal, steps: seq<Step>, decode: string -> Option<string>, e: Event, s: Step) {
    History(j + [e], steps + [s], decode)
  }

  lemma FollowsByAccord(j: Journal, steps: seq<Step>, decode: string -> Option<string>, e: Event, s: Step)
    requires History(j, steps, decode)
    ensures CanFollow(j, steps, decode, e, s) <==>
              Ordered(e, s) && Accords(e, PlanOf(e, s, HomeAfter(j, steps, decode), decode), s.done)
  {
    hide PlanOf, Accords, Ordered;
    assert (j + [e])[..|j|] == j && (steps + [s])[..|j|] == steps;
  }

  lemma {:induction false} SomeOrder(keys: set<string>) returns (order: seq<string>)
    ensures Lists(order, keys)
  {
    order := [];
    if keys != {} {
      var k :| k in keys;
      var rest := SomeOrder(keys - {k});
      order := [k] + rest;
    }
  }

  /** A history goes on with any interaction, except that the disk refuses to call a write
      effective that it cannot complete: a removal without a kubeconfig, or a store whose
      credentials do not decode. */
  lemma HistoryGoesOn(j: Journal, steps: seq<Step>, decode: string -> Option<string>, e: Event, h: Home)
    requires History(j, steps, decode) && h == HomeAfter(j, steps, decode)
    ensures (exists s :: CanFollow(j, steps, decode, e, s))
       <==> (Changes(e) && e.applied ==> exists s :: Ordered(e, s) && PlanOf(e, s, h, decode).complete)
  {
    hide PlanOf, CanFollow;
    forall s ensures CanFollow(j, steps, decode, e, s) <==> Ordered(e, s) && Accords(e, PlanOf(e, s, h, decode), s.done) {
      FollowsByAccord(j, steps, decode, e, s);
    }
    if Changes(e) && e.applied {
      if s :| Ordered(e, s) && PlanOf(e, s, h, decode).complete {
        var whole := Step(s.order, |PlanOf(e, s, h, decode).actions|);
        SamePlan(e, s, whole, h, decode);
        assert CanFollow(j, steps, decode, e, whole);
      }
    } else {
      var order := SomeOrder(if e.Stored? then Pems(e.rec).Keys else {});
      var none := Step(order, 0);
      CompletePlansWrite(e, none, h, decode);
      assert CanFollow(j, steps, decode, e, none);
    }
  }

  lemma SamePlan(e: Event, s: Step, t: Step, h: Home, decode: string -> Option<string>)
    requires s.order == t.order
    ensures PlanOf(e, s, h, decode) == PlanOf(e, t, h, decode)
  {
  }

  lemma CompletePlansWrite(e: Event, s: Step, h: Home, decode: string -> Option<string>)
    ensures Changes(e) && PlanOf(e, s, h, decode).complete ==> |PlanOf(e, s, h, decode).actions| > 0
  {
  }

  // ---------------------------------------------------------------- records

  predicate HasRecord(h: Home, n: string) {
    n in h.dirs && CONFIG in h.dirs[n]
  }

  predicate HasSuffix(s: string, suffix: string) {
    |suffix| <= |s| && s[|s| - |suffix|..] == suffix
  }

  /** The record file of a directory holds a record of its name; no other file looks like one. */
  predicate TidyDir(n: string, d: Dir) {
    && (CONFIG in d ==> d[CONFIG].ClusterFile? && d[CONFIG].rec.name == n)
    && forall f :: f in d && f != CONFIG ==> !HasSuffix(f, CONFIG)
  }

  predicate Tidy(h: Home) {
    forall n :: n in h.dirs ==> TidyDir(n, h.dirs[n])
  }

  function RecordsOn(h: Home): (r: map<string, Record>)
    requires Tidy(h)
  {
    map n | n in h.dirs && CONFIG in h.dirs[n] :: assert TidyDir(n, h.dirs[n]); h.dirs[n][CONFIG].rec
  }

  /** An action that writes no record: a credential file or the kubeconfig. */
  predicate Sundry(a: Action) {
    a.WriteKube? || (a.WriteFile? && !HasSuffix(a.file, CONFIG) && a.content.Bytes?)
  }

  lemma SundryKeeps(h: Home, a: Action)
    requires Tidy(h) && Sundry(a)
    ensures Tidy(Do(h, a)) && RecordsOn(Do(h, a)) == RecordsOn(h)
  {
  }

  lemma {:induction false} SundriesKeep(h: Home, actions: seq<Action>)
    requires Tidy(h) && forall a :: a in actions ==> Sundry(a)
    ensures Tidy(DoAll(h, actions)) && RecordsOn(DoAll(h, actions)) == RecordsOn(h)
  {
    if actions != [] {
      SundriesKeep(h, actions[..|actions| - 1]);
      SundryKeeps(DoAll(h, actions[..|actions| - 1]), actions[|actions| - 1]);
    }
  }

  lemma RecordFileWritten(h: Home, c: Record)
    requires Tidy(h)
    ensures var h' := Do(h, WriteFile(c.name, CONFIG, ClusterFile(c))); Tidy(h') && RecordsOn(h') == RecordsOn(h)[c.name := c]
  {
  }

  lemma DirRemoved(h: Home, n: string)
    requires Tidy(h)
    ensures Tidy(Do(h, RemoveDir(n))) && RecordsOn(Do(h, RemoveDir(n))) == RecordsOn(h) - {n}
  {
  }

  lemma {:induction false} PemsAreSundry(c: Record, order: seq<string>, decode: string -> Option<string>)
    requires forall k :: k in order ==> k in Pems(c)
    ensures forall a :: a in PemPlan(c, order, decode).actions ==> Sundry(a) && a.WriteFile?
  {
    if order != [] {
      PemsAreSundry(c, order[..|order| - 1], decode);
      PemFiles(c, order[|order| - 1]);
    }
  }

  lemma PemFiles(c: Record, k: string)
    requires k in Pems(c)
    ensures !HasSuffix(Pems(c)[k], CONFIG)
  {
    assert Pems(c)[k] in {CA_PEM, KEY_PEM, CERT_PEM};
  }

  lemma StoreRefines(c: Record, applied: bool, s: Step, h: Home, decode: string -> Option<string>)
    requires Tidy(h) && Accords(Stored(c, applied), PlanOf(Stored(c, applied), s, h, decode), s.done)
    ensures var h' := DoAll(h, StorePlan(h, c, OrderFor(c, s), decode).actions[..s.done]);
            Tidy(h') && RecordsOn(h') == if applied then RecordsOn(h)[c.name := c] else RecordsOn(h)
  {
    hide Pems, OrderFor, WithEntry, Tidy, RecordsOn, Do;
    var order := OrderFor(c, s);
    var plan, pems := StorePlan(h, c, order, decode), PemPlan(c, order, decode);
    var sundries := [WriteKube(WithEntry(KubeOf(h), c))] + pems.actions;
    var last := WriteFile(c.name, CONFIG, ClusterFile(c));
    PemsAreSundry(c, order, decode);
    if applied {
      assert plan.actions[..s.done] == sundries + [last];
      SundriesKeep(h, sundries);
      DoSnoc(h, sundries, last);
      RecordFileWritten(DoAll(h, sundries), c);
    } else {
      assert plan.actions[..s.done] == sundries[..s.done];
      SundriesKeep(h, sundries[..s.done]);
    }
  }

  lemma ErasureRefines(n: string, applied: bool, done: nat, h: Home)
    requires Tidy(h) && Accords(Erased(n, applied), RemovePlan(h, n), done)
    ensures var h' := DoAll(h, RemovePlan(h, n).actions[..done]);
            Tidy(h') && RecordsOn(h') == if applied then RecordsOn(h) - {n} else RecordsOn(h)
  {
    hide Tidy, RecordsOn, Do, DoAll, WithoutEntry;
    if h.kube.Some? {
      var first := WriteKube(WithoutEntry(h.kube.value, n));
      DoTwo(h, first, RemoveDir(n), done);
      SundryKeeps(h, first);
      DirRemoved(Do(h, first), n);
    } else {
      DoNothing(h, RemovePlan(h, n).actions);
    }
  }

  /** A prefix of a plan changes the records exactly when it is the whole of a complete plan. */
  lemma StepRefines(e: Event, s: Step, h: Home, decode: string -> Option<string>)
    requires Tidy(h) && Accords(e, PlanOf(e, s, h, decode), s.done)
    ensures var h' := DoAll(h, PlanOf(e, s, h, decode).actions[..s.done]);
            Tidy(h') && RecordsOn(h') == Apply(RecordsOn(h), e)
  {
    hide Tidy, RecordsOn, Do, DoAll, OrderFor, StorePlan, RemovePlan;
    var plan := PlanOf(e, s, h, decode);
    match e
    case StatusWritten(rec, applied) =>
      DoOne(h, plan.actions[0], s.done);
      RecordFileWritten(h, rec);
    case Stored(rec, applied) => StoreRefines(rec, applied, s, h, decode);
    case Erased(n, applied) => ErasureRefines(n, applied, s.done, h);
    case _ => DoNothing(h, plan.actions);
  }

  /** The disk refines the abstract store: after any history its record files are the records the
      journal stands for. */
  lemma {:induction false} DiskRefinesRecords(j: Journal, steps: seq<Step>, decode: string -> Option<string>)
    requires History(j, steps, decode)
    ensures Tidy(HomeAfter(j, steps, decode)) && RecordsOn(HomeAfter(j, steps, decode)) == Records(j)
    decreases |j|
  {
    if j != [] {
      DiskRefinesRecords(j[..|j| - 1], steps[..|j| - 1], decode);
      var h := HomeAfter(j[..|j| - 1], steps[..|j| - 1], decode);
      StepRefines(j[|j| - 1], steps[|j| - 1], h, decode);
    }
  }

  // ---------------------------------------------------------------- kubeconfig names

  predicate Listed(kube: Option<Kube>, n: string) {
    && kube.Some?
    && (n in Names(kube.value.clusters) || n in Names(kube.value.users) || n in Names(kube.value.contexts))
  }

  /** Every name in the kubeconfig has a record file. */
  ghost predicate Backed(h: Home) {
    forall n :: Listed(h.kube, n) ==> HasRecord(h, n)
  }

  lemma AddedNames<T>(xs: seq<Named<T>>, x: Named<T>)
    ensures forall n :: n in Names(AddMissing(xs, x)) ==> n in Names(xs) || n == x.name
  {
    NamesOfAdd(xs, x);
  }

  lemma DroppedNames<T>(xs: seq<Named<T>>, name: string)
    ensures forall n :: n in Names(Drop(xs, name)) ==> n in Names(xs) && n != name
  {
    NamesOfDrop(xs, name);
    DropNameKeepsOrder(Names(xs), name);
  }

  lemma FileKeepsBacked(h: Home, a: Action)
    requires Backed(h) && a.WriteFile?
    ensures Backed(Do(h, a))
  {
  }

  lemma {:induction false} FilesKeepBacked(h: Home, actions: seq<Action>)
    requires Backed(h) && forall a :: a in actions ==> a.WriteFile?
    ensures Backed(DoAll(h, actions))
  {
    if actions != [] {
      FilesKeepBacked(h, actions[..|actions| - 1]);
      FileKeepsBacked(DoAll(h, actions[..|actions| - 1]), actions[|actions| - 1]);
    }
  }

  /** Entering a name that has a record, and leaving a name out, keep the kubeconfig backed. */
  lemma KubeWritten(h: Home, c: Record, name: string)
    requires Backed(h)
    ensures HasRecord(h, c.name) ==> Backed(Do(h, WriteKube(WithEntry(KubeOf(h), c))))
    ensures Backed(Do(h, WriteKube(WithoutEntry(KubeOf(h), name))))
    ensures !Listed(Do(h, WriteKube(WithoutEntry(KubeOf(h), name))).kube, name)
  {
    var k := KubeOf(h);
    AddedNames(k.clusters, ClusterEntry(c));
    AddedNames(k.users, UserEntry(c));
    AddedNames(k.contexts, ContextEntry(c));
    DroppedNames(k.clusters, name);
    DroppedNames(k.users, name);
    DroppedNames(k.contexts, name);
    forall n | Listed(Some(k), n) ensures HasRecord(h, n) {
      assert Listed(h.kube, n);
    }
    var added, dropped := Do(h, WriteKube(WithEntry(k, c))), Do(h, WriteKube(WithoutEntry(k, name)));
    forall n | Listed(added.kube, n) && HasRecord(h, c.name) ensures HasRecord(added, n) {
      assert n == c.name || Listed(Some(k), n);
    }
    forall n | Listed(dropped.kube, n) ensures HasRecord(dropped, n) {
      assert Listed(Some(k), n);
    }
  }

  lemma StoreBacked(h: Home, c: Record, order: seq<string>, n: nat, decode: string -> Option<string>)
    requires Backed(h) && HasRecord(h, c.name) && forall k :: k in order ==> k in Pems(c)
    requires 0 < n <= |StorePlan(h, c, order, decode).actions|
    ensures Backed(DoAll(h, StorePlan(h, c, order, decode).actions[..n]))
  {
    hide Backed, HasRecord, Pems, PemPlan, WithEntry, Do;
    var plan := StorePlan(h, c, order, decode).actions;
    assert plan[..n] == [plan[0]] + plan[1..n];
    DoConcat(h, [plan[0]], plan[1..n]);
    DoOne(h, plan[0], 1);
    assert [plan[0]][..1] == [plan[0]];
    KubeWritten(h, c, "");
    PemsAreSundry(c, order, decode);
    FilesKeepBacked(Do(h, plan[0]), plan[1..n]);
  }

  lemma DirRemovedBacked(h: Home, name: string)
    requires Backed(h) && !Listed(h.kube, name)
    ensures Backed(Do(h, RemoveDir(name)))
  {
    hide Listed;
  }

  lemma ErasureBacked(h: Home, name: string, n: nat)
    requires Backed(h) && 0 < n <= |RemovePlan(h, name).actions|
    ensures Backed(DoAll(h, RemovePlan(h, name).actions[..n]))
  {
    hide Backed, Listed, HasRecord, WithEntry, WithoutEntry, Do, DoAll;
    var first := WriteKube(WithoutEntry(KubeOf(h), name));
    DoTwo(h, first, RemoveDir(name), n);
    KubeWritten(h, Record("", "", NoInfo), name);
    if n == 2 {
      DirRemovedBacked(Do(h, first), name);
    }
  }

  /** Any prefix of the writes of an interaction keeps the kubeconfig backed, provided that a
      cluster stored whole already has a record. */
  lemma StepBacked(e: Event, s: Step, h: Home, n: nat, decode: string -> Option<string>)
    requires Backed(h) && n <= |PlanOf(e, s, h, decode).actions|
    requires e.Stored? ==> HasRecord(h, e.rec.name)
    ensures Backed(DoAll(h, PlanOf(e, s, h, decode).actions[..n]))
  {
    hide Backed, HasRecord, StorePlan, RemovePlan, OrderFor, Do, DoAll;
    var plan := PlanOf(e, s, h, decode).actions;
    if n == 0 {
      DoNothing(h, plan);
    } else {
      match e
      case StatusWritten(rec, _) =>
        DoOne(h, plan[0], n);
        FileKeepsBacked(h, plan[0]);
      case Stored(rec, _) => StoreBacked(h, rec, OrderFor(rec, s), n, decode);
      case Erased(name, _) => ErasureBacked(h, name, n);
    }
  }

  lemma {:induction false} HistoryBacked(j: Journal, steps: seq<Step>, decode: string -> Option<string>)
    requires History(j, steps, decode) && StoreDiscipline.Disciplined(j)
    ensures Backed(HomeAfter(j, steps, decode))
    decreases |j|
  {
    if j != [] {
      var before, e, s := j[..|j| - 1], j[|j| - 1], steps[|j| - 1];
      StoreDiscipline.Cut(before, j);
      HistoryBacked(before, steps[..|j| - 1], decode);
      DiskRefinesRecords(before, steps[..|j| - 1], decode);
      var h := HomeAfter(before, steps[..|j| - 1], decode);
      if e.Stored? {
        assert e.rec.name in RecordsOn(h);
      }
      StepBacked(e, s, h, s.done, decode);
    }
  }

  /** From an empty home, in every run of the cluster operations, stopped between any two file
      writes: every name in the kubeconfig has a record file. */
  lemma KubeconfigIsBacked(ts: seq<Runs.Task>, env: Env, i: nat, steps: seq<Step>, next: Step, n: nat,
                           decode: string -> Option<string>)
    requires i <= |Runs.Run(ts, [], env)| && History(Runs.Run(ts, [], env)[..i], steps, decode)
    ensures var k, h := Runs.Run(ts, [], env), HomeAfter(Runs.Run(ts, [], env)[..i], steps, decode);
            && Backed(h)
            && (i < |k| && n <= |PlanOf(k[i], next, h, decode).actions| ==>
                  Backed(DoAll(h, PlanOf(k[i], next, h, decode).actions[..n])))
  {
    var k := Runs.Run(ts, [], env);
    var h := HomeAfter(k[..i], steps, decode);
    StoreDiscipline.RunDisciplined(ts, [], env);
    StoreDiscipline.Cut(k[..i], k);
    HistoryBacked(k[..i], steps, decode);
    DiskRefinesRecords(k[..i], steps, decode);
    if i < |k| && n <= |PlanOf(k[i], next, h, decode).actions| {
      if k[i].Stored? {
        assert k[i].rec.name in RecordsOn(h);
      }
      StepBacked(k[i], next, h, n, decode);
    }
  }
}
