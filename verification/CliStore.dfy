/**
 The store of the command line tool: a kubeconfig and one directory of files per cluster.

 Each operation is a plan of file writes, each of which is taken as atomic (module FileWrite
 looks inside one); a failing write or a stop leaves the effect of a prefix of the plan.
 */
module CliStore {
  import opened Base
  import opened Lifecycle
  import opened KubeConfig

  datatype Content = ClusterFile(rec: Record) | Bytes(data: string)

  type Dir = map<string, Content>

  /** The kubeconfig and the directories under "clusters". */
  datatype Home = Home(kube: Option<Kube>, dirs: map<string, Dir>)

  const EmptyHome := Home(None, map[])

  const CONFIG := "config.json"
  const CA_PEM := "ca.pem"
  const KEY_PEM := "key.pem"
  const CERT_PEM := "cert.pem"

  datatype Action =
    | WriteKube(kube: Kube)
    | WriteFile(dir: string, file: string, content: Content)
    | RemoveDir(dir: string)

  function FilesOf(h: Home, name: string): (r: Dir) {
    if name in h.dirs then h.dirs[name] else map[]
  }

  function KubeOf(h: Home): (r: Kube) {
    if h.kube.Some? then h.kube.value else EmptyKube
  }

  function Do(h: Home, a: Action): (r: Home) {
    match a
    case WriteKube(kube) => h.(kube := Some(kube))
    case WriteFile(dir, file, content) => h.(dirs := h.dirs[dir := FilesOf(h, dir)[file := content]])
    case RemoveDir(dir) => h.(dirs := h.dirs - {dir})
  }

  function DoAll(h: Home, actions: seq<Action>): (r: Home) {
    if actions == [] then h else Do(DoAll(h, actions[..|actions| - 1]), actions[|actions| - 1])
  }

  /** The file writes of an operation; an incomplete plan ends in an error of its own. */
  datatype Plan = Plan(actions: seq<Action>, complete: bool)

  /** The map literal of Store: equal credentials share one key, and the later file wins. */
  function Pems(c: Record): (r: map<string, string>) {
    map[][c.info.rootCaCertificate := CA_PEM][c.info.clientKey := KEY_PEM][c.info.clientCertificate := CERT_PEM]
  }

  /** The credential files, in the order in which the map is visited, up to one that does not decode. */
  function PemPlan(c: Record, order: seq<string>, decode: string -> Option<string>): (r: Plan)
    requires forall k :: k in order ==> k in Pems(c)
  {
    if order == [] then Plan([], true)
    else
      var before, k := PemPlan(c, order[..|order| - 1], decode), order[|order| - 1];
      if !before.complete then before
      else if decode(k).None? then Plan(before.actions, false)
      else Plan(before.actions + [WriteFile(c.name, Pems(c)[k], Bytes(decode(k).value))], true)
  }

  function StatusPlan(c: Record): (r: Plan) {
    Plan([WriteFile(c.name, CONFIG, ClusterFile(c))], true)
  }

  function StorePlan(h: Home, c: Record, order: seq<string>, decode: string -> Option<string>): (r: Plan)
    requires forall k :: k in order ==> k in Pems(c)
  {
    var kube, pems := [WriteKube(WithEntry(KubeOf(h), c))], PemPlan(c, order, decode);
    if pems.complete then Plan(kube + pems.actions + [WriteFile(c.name, CONFIG, ClusterFile(c))], true)
    else Plan(kube + pems.actions, false)
  }

  function RemovePlan(h: Home, name: string): (r: Plan) {
    if h.kube.None? then Plan([], false)
    else Plan([WriteKube(WithoutEntry(h.kube.value, name)), RemoveDir(name)], true)
  }

  /** What a finished store leaves in the directory of the cluster: every credential the map literal
      kept, decoded, under its file; the record; and every other file as it was. */
  ghost predicate StoredFiles(before: Dir, after: Dir, c: Record, decode: string -> Option<string>) {
    && (forall k :: k in Pems(c) ==>
          decode(k).Some? && Pems(c)[k] in after && after[Pems(c)[k]] == Bytes(decode(k).value))
    && CONFIG in after && after[CONFIG] == ClusterFile(c)
    && (forall f :: f != CONFIG && (forall k :: k in Pems(c) ==> Pems(c)[k] != f) ==>
          (f in after <==> f in before) && (f in before ==> after[f] == before[f]))
  }

  /** CLIPersistStore.Get */
  function Get(h: Home, name: string): (r: Result<Record, string>) {
    if CONFIG !in FilesOf(h, name) then Err("not found")
    else
      match FilesOf(h, name)[CONFIG]
      case ClusterFile(rec) => Ok(rec)
      case Bytes(_) => Err("invalid record")
  }

  class Disk {
    var home: Home
    var clock: nat
    const fails: nat -> bool  // whether the i-th file write fails
    const decode: string -> Option<string>  // base64

    constructor (fails: nat -> bool, decode: string -> Option<string>)
      ensures home == EmptyHome && clock == 0 && this.fails == fails && this.decode == decode
    {
      home, clock := EmptyHome, 0;
      this.fails, this.decode := fails, decode;
    }

    /** How many of the next `most` writes go through before one fails. */
    function Progress(from: nat, most: nat): (n: nat)
      ensures n <= most
      ensures forall t :: from <= t < from + n ==> !fails(t)
      ensures n < most ==> fails(from + n)
      decreases most
    {
      if most == 0 || fails(from) then 0 else 1 + Progress(from + 1, most - 1)
    }

    method Write(a: Action) returns (ok: bool)
      modifies this
      ensures ok <==> !fails(old(clock))
      ensures clock == old(clock) + 1
      ensures home == if ok then Do(old(home), a) else old(home)
    {
      ok := !fails(clock);
      if ok {
        home := Do(home, a);
      }
      clock := clock + 1;
    }

    /** What a plan leaves when its writes go through up to the first that fails. */
    ghost predicate Carried(h: Home, from: nat, plan: Plan, ok: bool)
      reads this
    {
      && home == DoAll(h, plan.actions[..Progress(from, |plan.actions|)])
      && (ok <==> plan.complete && Progress(from, |plan.actions|) == |plan.actions|)
    }

    lemma {:induction false} ProgressIs(from: nat, most: nat, n: nat)
      requires n <= most && (forall t :: from <= t < from + n ==> !fails(t)) && (n < most ==> fails(from + n))
      ensures Progress(from, most) == n
    {
    }

    lemma ProgressStops(from: nat, most: nat, n: nat)
      requires n <= most && forall t :: from <= t < from + n ==> !fails(t)
      ensures n == most || fails(from + n) ==> Progress(from, most) == n
    {
      if n == most || fails(from + n) {
        ProgressIs(from, most, n);
      }
    }

    method PersistStatus(c: Record, s: Status) returns (ok: bool)
      modifies this
      ensures Carried(old(home), old(clock), StatusPlan(WithStatus(c, s)), ok)
      ensures home.kube == old(home).kube
      ensures ok ==> home.dirs == old(home).dirs[c.name := FilesOf(old(home), c.name)["config.json" := ClusterFile(WithStatus(c, s))]]
    {
      var written := c.(info := c.info.(status := s));
      ghost var h, from, plan := home, clock, StatusPlan(written);
      ok := Write(WriteFile(c.name, CONFIG, ClusterFile(written)));
      ProgressIs(from, 1, if ok then 1 else 0);
      DoOne(h, plan.actions[0], if ok then 1 else 0);
    }

    method StorePems(c: Record, order: seq<string>) returns (ok: bool)
      requires forall k :: k in order ==> k in Pems(c)
      modifies this
      ensures Carried(old(home), old(clock), PemPlan(c, order, decode), ok)
      ensures ok ==> clock == old(clock) + |PemPlan(c, order, decode).actions|
    {
      hide Pems, PemPlan, Do, DoAll, Progress;
      ghost var h, from, plan := home, clock, PemPlan(c, order, decode);
      ghost var done: seq<Action> := [];
      PemPlanStart(c, order, decode);
      assert DoAll(h, done) == h by { DoNothing(h, done); assert done[..0] == done; }
      for i := 0 to |order|
        invariant clock == from + |done|
        invariant PemPlan(c, order[..i], decode) == Plan(done, true)
        invariant forall t :: from <= t < from + |done| ==> !fails(t)
        invariant home == DoAll(h, done)
      {
        PemPlanStep(c, order, i, decode);
        ProgressStops(from, |plan.actions|, |done|);
        assert plan.actions[..|done|] == done;
        var data := decode(order[i]);
        if data.None? {
          return false;
        }
        var a := WriteFile(c.name, Pems(c)[order[i]], Bytes(data.value));
        DoSnoc(h, done, a);
        ok := Write(a);
        if !ok {
          return;
        }
        done := done + [a];
      }
      assert order[..|order|] == order && done[..|done|] == done;
      ProgressStops(from, |done|, |done|);
      ok := true;
    }

    /** A store whose credential files stop short. */
    lemma StoreStopsShort(h: Home, from: nat, c: Record, order: seq<string>)
      requires (forall k :: k in order ==> k in Pems(c)) && !fails(from)
      requires var pems := PemPlan(c, order, decode); !(pems.complete && Progress(from + 1, |pems.actions|) == |pems.actions|)
      ensures var plan, pems := StorePlan(h, c, order, decode), PemPlan(c, order, decode);
              var n, p := Progress(from, |plan.actions|), Progress(from + 1, |pems.actions|);
              && DoAll(h, plan.actions[..n]) == DoAll(Do(h, WriteKube(WithEntry(KubeOf(h), c))), pems.actions[..p])
              && !(plan.complete && n == |plan.actions|)
    {
      hide Pems, PemPlan, WithEntry, Do, DoAll, Progress;
      var plan, pems := StorePlan(h, c, order, decode), PemPlan(c, order, decode);
      var kube, p := WriteKube(WithEntry(KubeOf(h), c)), Progress(from + 1, |pems.actions|);
      DoOne(h, kube, 1);
      assert [kube][..1] == [kube];
      DoConcat(h, [kube], pems.actions[..p]);
      ProgressIs(from, |plan.actions|, 1 + p);
      assert plan.actions[..1 + p] == [kube] + pems.actions[..p];
    }

    /** A store that gets to its last write. */
    lemma StoreEnds(h: Home, from: nat, c: Record, order: seq<string>)
      requires (forall k :: k in order ==> k in Pems(c)) && !fails(from)
      requires var pems := PemPlan(c, order, decode); pems.complete && Progress(from + 1, |pems.actions|) == |pems.actions|
      ensures var plan, pems := StorePlan(h, c, order, decode), PemPlan(c, order, decode);
              var h1 := DoAll(Do(h, WriteKube(WithEntry(KubeOf(h), c))), pems.actions);
              var n := Progress(from, |plan.actions|);
              if fails(from + 1 + |pems.actions|) then DoAll(h, plan.actions[..n]) == h1 && n < |plan.actions|
              else DoAll(h, plan.actions[..n]) == Do(h1, WriteFile(c.name, CONFIG, ClusterFile(c))) && n == |plan.actions| && plan.complete
    {
      hide Pems, PemPlan, WithEntry, Do, DoAll, Progress;
      var plan, pems := StorePlan(h, c, order, decode), PemPlan(c, order, decode).actions;
      var kube, last := WriteKube(WithEntry(KubeOf(h), c)), WriteFile(c.name, CONFIG, ClusterFile(c));
      DoOne(h, kube, 1);
      assert [kube][..1] == [kube];
      DoConcat(h, [kube], pems);
      DoSnoc(h, [kube] + pems, last);
      ProgressIs(from, |plan.actions|, if fails(from + 1 + |pems|) then 1 + |pems| else 2 + |pems|);
      assert plan.actions[..1 + |pems|] == [kube] + pems;
      assert plan.actions[..2 + |pems|] == [kube] + pems + [last];
    }

    method Store(c: Record, order: seq<string>) returns (ok: bool)
      requires Lists(order, Pems(c).Keys)
      modifies this
      ensures Carried(old(home), old(clock), StorePlan(old(home), c, order, decode), ok)
      ensures ok ==> StoredFiles(FilesOf(old(home), c.name), FilesOf(home, c.name), c, decode)
      ensures ok ==> home.kube == Some(WithEntry(KubeOf(old(home)), c))
      ensures ok ==> forall n :: n != c.name ==> FilesOf(home, n) == FilesOf(old(home), n)
    {
      hide Pems, PemPlan, StorePlan, WithEntry, Do, DoAll, Progress;
      ghost var h, from, plan, pems := home, clock, StorePlan(home, c, order, decode), PemPlan(c, order, decode);
      ok := StoreKube(c);
      if !ok {
        StoreBegins(h, c, order, decode);
        DoNothing(h, plan.actions);
        ProgressIs(from, |plan.actions|, 0);
        return;
      }
      ok := StorePems(c, order);
      if !ok {
        StoreStopsShort(h, from, c, order);
        return;
      }
      StoreEnds(h, from, c, order);
      assert pems.actions[..|pems.actions|] == pems.actions;
      ok := Write(WriteFile(c.name, CONFIG, ClusterFile(c)));
      if ok {
        assert plan.actions[..|plan.actions|] == plan.actions;
        FinishedStore(h, c, order, decode);
        StoreElsewhere(h, c, order, decode);
      }
    }

    /** storeConfig: the kubeconfig is read, extended and written back. */
    method StoreKube(c: Record) returns (ok: bool)
      modifies this
      ensures ok <==> !fails(old(clock))
      ensures clock == old(clock) + 1
      ensures home == if ok then Do(old(home), WriteKube(WithEntry(KubeOf(old(home)), c))) else old(home)
    {
      var config := new KubeConfig(if home.kube.Some? then home.kube.value else EmptyKube);
      config.StoreConfig(c);
      ok := Write(WriteKube(config.Value()));
    }

    method Remove(name: string) returns (ok: bool)
      modifies this
      ensures Carried(old(home), old(clock), RemovePlan(old(home), name), ok)
      ensures ok ==> old(home).kube.Some? && home == Home(Some(WithoutEntry(old(home).kube.value, name)), old(home).dirs - {name})
    {
      if home.kube.None? {
        ProgressIs(clock, 0, 0);
        return false;
      }
      ghost var h, from, plan := home, clock, RemovePlan(home, name);
      var config := new KubeConfig(home.kube.value);
      config.DeleteConfigByName(name);
      ok := Write(WriteKube(config.Value()));
      if !ok {
        ProgressIs(from, 2, 0);
        DoTwo(h, plan.actions[0], plan.actions[1], 0);
        return;
      }
      ok := Write(RemoveDir(name));
      ProgressIs(from, 2, if ok then 2 else 1);
      DoTwo(h, plan.actions[0], plan.actions[1], if ok then 2 else 1);
    }
  }

  lemma StoreBegins(h: Home, c: Record, order: seq<string>, decode: string -> Option<string>)
    requires forall k :: k in order ==> k in Pems(c)
    ensures |StorePlan(h, c, order, decode).actions| > 0
  {
  }

  lemma DoNothing(h: Home, actions: seq<Action>)
    ensures DoAll(h, actions[..0]) == h
  {
  }

  lemma DoSnoc(h: Home, actions: seq<Action>, a: Action)
    ensures DoAll(h, actions + [a]) == Do(DoAll(h, actions), a)
  {
    assert (actions + [a])[..|actions|] == actions;
  }

  lemma DoOne(h: Home, a: Action, n: nat)
    requires n <= 1
    ensures DoAll(h, [a][..n]) == if n == 0 then h else Do(h, a)
  {
    hide Do;
    DoSnoc(h, [], a);
    assert [a] == [] + [a] == [a][..1] && [a][..0] == [];
  }

  lemma DoTwo(h: Home, a: Action, b: Action, n: nat)
    requires n <= 2
    ensures DoAll(h, [a, b][..n]) == if n == 0 then h else if n == 1 then Do(h, a) else Do(Do(h, a), b)
  {
    hide Do;
    DoOne(h, a, if n == 0 then 0 else 1);
    DoSnoc(h, [a], b);
    assert [a, b] == [a] + [b] == [a, b][..2] && [a, b][..1] == [a] == [a][..1] && [a, b][..0] == [] == [a][..0];
  }

  lemma {:induction false} PemPlanPrefix(c: Record, order: seq<string>, i: nat, decode: string -> Option<string>)
    requires (forall k :: k in order ==> k in Pems(c)) && i <= |order|
    ensures PemPlan(c, order[..i], decode).actions <= PemPlan(c, order, decode).actions
    ensures !PemPlan(c, order[..i], decode).complete ==> PemPlan(c, order, decode) == PemPlan(c, order[..i], decode)
    ensures PemPlan(c, order[..i], decode).complete ==> |PemPlan(c, order[..i], decode).actions| == i
  {
    if i == |order| {
      assert order[..i] == order;
      if order != [] {
        PemPlanPrefix(c, order[..i - 1], i - 1, decode);
        assert order[..i - 1][..i - 1] == order[..i - 1];
      }
    } else {
      var before := order[..|order| - 1];
      assert before[..i] == order[..i];
      PemPlanPrefix(c, before, i, decode);
    }
  }

  lemma PemPlanStart(c: Record, order: seq<string>, decode: string -> Option<string>)
    requires forall k :: k in order ==> k in Pems(c)
    ensures PemPlan(c, order[..0], decode) == Plan([], true)
  {
  }

  lemma PemPlanStep(c: Record, order: seq<string>, i: nat, decode: string -> Option<string>)
    requires (forall k :: k in order ==> k in Pems(c)) && i < |order| && PemPlan(c, order[..i], decode).complete
    ensures var plan, done := PemPlan(c, order, decode), PemPlan(c, order[..i], decode).actions;
            && done <= plan.actions
            && (decode(order[i]).None? ==> plan == Plan(done, false))
            && (decode(order[i]).Some? ==>
                  var more := done + [WriteFile(c.name, Pems(c)[order[i]], Bytes(decode(order[i]).value))];
                  PemPlan(c, order[..i + 1], decode) == Plan(more, true) && more <= plan.actions)
  {
    assert order[..i + 1][..i] == order[..i];
    PemPlanPrefix(c, order, i, decode);
    PemPlanPrefix(c, order, i + 1, decode);
  }

  lemma {:induction false} DoConcat(h: Home, a: seq<Action>, b: seq<Action>)
    ensures DoAll(h, a + b) == DoAll(DoAll(h, a), b)
  {
    if b == [] {
      assert a + b == a;
    } else {
      assert (a + b)[..|a + b| - 1] == a + b[..|b| - 1];
      DoConcat(h, a, b[..|b| - 1]);
    }
  }

  // ---------------------------------------------------------------- the credential files

  lemma PemNames(c: Record, k: string)
    requires k in Pems(c)
    ensures Pems(c)[k] in {CA_PEM, KEY_PEM, CERT_PEM} && Pems(c)[k] != CONFIG
    ensures forall l :: l in Pems(c) && Pems(c)[l] == Pems(c)[k] ==> l == k
  {
    assert CA_PEM != KEY_PEM && KEY_PEM != CERT_PEM && CERT_PEM != CA_PEM;
  }

  /** The credentials among `order`, decoded, on top of the files that were there. */
  lemma {:induction false} PemsWritten(h: Home, c: Record, order: seq<string>, decode: string -> Option<string>)
    requires (forall k :: k in order ==> k in Pems(c)) && PemPlan(c, order, decode).complete
    ensures var after := FilesOf(DoAll(h, PemPlan(c, order, decode).actions), c.name);
            && (forall k :: k in order ==>
                  decode(k).Some? && Pems(c)[k] in after && after[Pems(c)[k]] == Bytes(decode(k).value))
            && (forall f :: (forall k :: k in order ==> Pems(c)[k] != f) ==>
                  (f in after <==> f in FilesOf(h, c.name)) && (f in after ==> after[f] == FilesOf(h, c.name)[f]))
  {
    hide Pems;
    if order != [] {
      var before, k := order[..|order| - 1], order[|order| - 1];
      PemsWritten(h, c, before, decode);
      PemNames(c, k);
      assert order == before + [k];
      DoSnoc(h, PemPlan(c, before, decode).actions, WriteFile(c.name, Pems(c)[k], Bytes(decode(k).value)));
    }
  }

  /** Writing the files of a directory leaves the kubeconfig and the other directories alone. */
  lemma {:induction false} FilesOnly(h: Home, actions: seq<Action>, dir: string)
    requires forall a :: a in actions ==> a.WriteFile? && a.dir == dir
    ensures DoAll(h, actions).kube == h.kube
    ensures forall n :: n != dir ==> FilesOf(DoAll(h, actions), n) == FilesOf(h, n)
  {
    if actions != [] {
      FilesOnly(h, actions[..|actions| - 1], dir);
      assert actions[|actions| - 1] in actions;
    }
  }

  lemma {:induction false} PemPlanFiles(c: Record, order: seq<string>, decode: string -> Option<string>)
    requires forall k :: k in order ==> k in Pems(c)
    ensures forall a :: a in PemPlan(c, order, decode).actions ==> a.WriteFile? && a.dir == c.name
  {
    hide Pems;
    if order != [] {
      PemPlanFiles(c, order[..|order| - 1], decode);
    }
  }

  lemma StoreElsewhere(h: Home, c: Record, order: seq<string>, decode: string -> Option<string>)
    requires (forall k :: k in order ==> k in Pems(c)) && StorePlan(h, c, order, decode).complete
    ensures var after := DoAll(h, StorePlan(h, c, order, decode).actions);
            && after.kube == Some(WithEntry(KubeOf(h), c))
            && forall n :: n != c.name ==> FilesOf(after, n) == FilesOf(h, n)
  {
    hide Pems, PemPlan, WithEntry, DoAll;
    var kube, files := WriteKube(WithEntry(KubeOf(h), c)), PemPlan(c, order, decode).actions + [WriteFile(c.name, CONFIG, ClusterFile(c))];
    PemPlanFiles(c, order, decode);
    DoOne(h, kube, 1);
    assert [kube][..1] == [kube];
    DoConcat(h, [kube], files);
    assert StorePlan(h, c, order, decode).actions == [kube] + files;
    FilesOnly(Do(h, kube), files, c.name);
  }

  lemma FinishedStore(h: Home, c: Record, order: seq<string>, decode: string -> Option<string>)
    requires Lists(order, Pems(c).Keys) && StorePlan(h, c, order, decode).complete
    ensures StoredFiles(FilesOf(h, c.name), FilesOf(DoAll(h, StorePlan(h, c, order, decode).actions), c.name), c, decode)
  {
    hide Pems, PemPlan, WithEntry, DoAll;
    var kube, pems := WriteKube(WithEntry(KubeOf(h), c)), PemPlan(c, order, decode).actions;
    var last := WriteFile(c.name, CONFIG, ClusterFile(c));
    DoOne(h, kube, 1);
    assert [kube][..1] == [kube];
    DoConcat(h, [kube], pems);
    DoSnoc(h, [kube] + pems, last);
    PemsWritten(Do(h, kube), c, order, decode);
    assert FilesOf(Do(h, kube), c.name) == FilesOf(h, c.name);
    forall k | k in Pems(c) ensures k in order && Pems(c)[k] != CONFIG {
      PemNames(c, k);
    }
  }

  /** The map literal keeps all three credential files if and only if the three credentials differ. */
  lemma AllPemsKept(c: Record)
    ensures Pems(c).Values == {CA_PEM, KEY_PEM, CERT_PEM} <==>
              && c.info.rootCaCertificate != c.info.clientKey
              && c.info.rootCaCertificate != c.info.clientCertificate
              && c.info.clientKey != c.info.clientCertificate
  {
    var m, ca, key, cert := Pems(c), c.info.rootCaCertificate, c.info.clientKey, c.info.clientCertificate;
    assert CA_PEM != KEY_PEM && KEY_PEM != CERT_PEM && CERT_PEM != CA_PEM;
    if ca != key && ca != cert && key != cert {
      assert m[ca] == CA_PEM && m[key] == KEY_PEM && m[cert] == CERT_PEM;
      forall f | f in m.Values ensures f in {CA_PEM, KEY_PEM, CERT_PEM} {
        var k :| k in m && m[k] == f;
      }
    } else if ca == key || ca == cert {
      forall k | k in m ensures m[k] != CA_PEM {
      }
    } else {
      forall k | k in m ensures m[k] != KEY_PEM {
      }
    }
  }

  /** After a finished store each credential is in its own file, as far as the map literal keeps it:
      the client certificate always, the key unless it equals the certificate, and the root
      certificate unless it equals either. */
  lemma CredentialsInTheirFiles(before: Dir, after: Dir, c: Record, decode: string -> Option<string>)
    requires StoredFiles(before, after, c, decode)
    ensures var ca, key, cert := c.info.rootCaCertificate, c.info.clientKey, c.info.clientCertificate;
            && decode(cert).Some? && "cert.pem" in after && after["cert.pem"] == Bytes(decode(cert).value)
            && (key != cert ==> decode(key).Some? && "key.pem" in after && after["key.pem"] == Bytes(decode(key).value))
            && (ca != cert && ca != key ==> decode(ca).Some? && "ca.pem" in after && after["ca.pem"] == Bytes(decode(ca).value))
            && "config.json" in after && after["config.json"] == ClusterFile(c)
  {
    var m, ca, key, cert := Pems(c), c.info.rootCaCertificate, c.info.clientKey, c.info.clientCertificate;
    assert cert in m && m[cert] == "cert.pem";
    assert key != cert ==> key in m && m[key] == "key.pem";
    assert ca != cert && ca != key ==> ca in m && m[ca] == "ca.pem";
  }

  /** A finished first store of a cluster leaves all three credential files if and only if the three
      credentials differ. */
  lemma FirstStoreLeavesAll(after: Dir, c: Record, decode: string -> Option<string>)
    requires StoredFiles(map[], after, c, decode)
    ensures {CA_PEM, KEY_PEM, CERT_PEM} <= after.Keys <==>
              && c.info.rootCaCertificate != c.info.clientKey
              && c.info.rootCaCertificate != c.info.clientCertificate
              && c.info.clientKey != c.info.clientCertificate
  {
    hide Pems;
    AllPemsKept(c);
    forall f | f in Pems(c).Values ensures f in after && f in {CA_PEM, KEY_PEM, CERT_PEM} {
      var k :| k in Pems(c) && Pems(c)[k] == f;
      PemNames(c, k);
    }
    forall f | f in {CA_PEM, KEY_PEM, CERT_PEM} && f in after ensures f in Pems(c).Values {
      assert f != CONFIG;
      assert exists k :: k in Pems(c) && Pems(c)[k] == f;
    }
  }
}
