/**
 The kubeconfig file: three parallel lists of named entries, extended by Store and filtered by
 Remove.
 */
module KubeConfig {
  import opened Base
  import opened Lifecycle

  datatype Named<T> = Named(name: string, data: T)

  datatype ClusterData = ClusterData(certificateAuthorityData: string, server: string)
  datatype UserData = UserData(username: string, password: string, token: string)
  datatype ContextData = ContextData(cluster: string, user: string)

  /** The file as a value. */
  datatype Kube = Kube(
    apiVersion: string,
    kind: string,
    clusters: seq<Named<ClusterData>>,
    users: seq<Named<UserData>>,
    contexts: seq<Named<ContextData>>,
    currentContext: string)

  const EmptyKube := Kube("", "", [], [], [], "")

  function Names<T>(xs: seq<Named<T>>): (r: seq<string>)
    ensures |r| == |xs| && forall i :: 0 <= i < |xs| ==> r[i] == xs[i].name
  {
    seq(|xs|, i requires 0 <= i < |xs| => xs[i].name)
  }

  /** An entry is appended only under a new name: a known one is not refreshed. */
  function AddMissing<T>(xs: seq<Named<T>>, x: Named<T>): (r: seq<Named<T>>) {
    if x.name in Names(xs) then xs else xs + [x]
  }

  function Drop<T>(xs: seq<Named<T>>, name: string): (r: seq<Named<T>>) {
    if xs == [] then []
    else Drop(xs[..|xs| - 1], name) + (if xs[|xs| - 1].name != name then [xs[|xs| - 1]] else [])
  }

  const HTTPS := "https://"

  function Server(endpoint: string): (r: string) {
    if HTTPS <= endpoint then endpoint else HTTPS + endpoint
  }

  function ClusterEntry(c: Record): (r: Named<ClusterData>) {
    Named(c.name, ClusterData(c.info.rootCaCertificate, Server(c.info.endpoint)))
  }

  /** Basic authentication when both parts are there, else the service account token. */
  function UserEntry(c: Record): (r: Named<UserData>) {
    if c.info.username != "" && c.info.password != ""
    then Named(c.name, UserData(c.info.username, c.info.password, ""))
    else Named(c.name, UserData("", "", c.info.serviceAccountToken))
  }

  function ContextEntry(c: Record): (r: Named<ContextData>) {
    Named(c.name, ContextData(c.name, c.name))
  }

  function WithEntry(k: Kube, c: Record): (r: Kube) {
    k.(apiVersion := "v1", kind := "Config",
       clusters := AddMissing(k.clusters, ClusterEntry(c)),
       users := AddMissing(k.users, UserEntry(c)),
       contexts := AddMissing(k.contexts, ContextEntry(c)))
  }

  function WithoutEntry(k: Kube, name: string): (r: Kube) {
    k.(clusters := Drop(k.clusters, name), users := Drop(k.users, name), contexts := Drop(k.contexts, name))
  }

  method HasName<T>(xs: seq<Named<T>>, name: string) returns (exist: bool)
    ensures exist <==> name in Names(xs)
  {
    exist := false;
    for i := 0 to |xs|
      invariant !exist && forall j :: 0 <= j < i ==> xs[j].name != name
    {
      if xs[i].name == name {
        assert Names(xs)[i] == name;
        exist := true;
        break;
      }
    }
  }

  method KeepOthers<T>(xs: seq<Named<T>>, name: string) returns (kept: seq<Named<T>>)
    ensures kept == Drop(xs, name)
  {
    kept := [];
    for i := 0 to |xs|
      invariant kept == Drop(xs[..i], name)
    {
      assert xs[..i + 1][..i] == xs[..i];
      if xs[i].name != name {
        kept := kept + [xs[i]];
      }
    }
    assert xs[..|xs|] == xs;
  }

  class KubeConfig {
    var apiVersion: string
    var kind: string
    var clusters: seq<Named<ClusterData>>
    var users: seq<Named<UserData>>
    var contexts: seq<Named<ContextData>>
    var currentContext: string

    function Value(): (r: Kube)
      reads this
    {
      Kube(apiVersion, kind, clusters, users, contexts, currentContext)
    }

    constructor (k: Kube)
      ensures Value() == k
    {
      apiVersion, kind, clusters := k.apiVersion, k.kind, k.clusters;
      users, contexts, currentContext := k.users, k.contexts, k.currentContext;
    }

    /** storeConfig, between reading and writing the file. */
    method StoreConfig(c: Record)
      modifies this
      ensures Value() == WithEntry(old(Value()), c)
    {
      var username, password, token := "", "", "";
      if c.info.username != "" && c.info.password != "" {
        username, password := c.info.username, c.info.password;
      } else {
        token := c.info.serviceAccountToken;
      }
      apiVersion, kind := "v1", "Config";
      var host := c.info.endpoint;
      if !(HTTPS <= host) {
        host := HTTPS + host;
      }
      var exist := HasName(clusters, c.name);
      if !exist {
        clusters := clusters + [Named(c.name, ClusterData(c.info.rootCaCertificate, host))];
      }
      exist := HasName(users, c.name);
      if !exist {
        users := users + [Named(c.name, UserData(username, password, token))];
      }
      exist := HasName(contexts, c.name);
      if !exist {
        contexts := contexts + [Named(c.name, ContextData(c.name, c.name))];
      }
    }

    method DeleteConfigByName(name: string)
      modifies this
      ensures Value() == WithoutEntry(old(Value()), name)
    {
      var keptContexts := KeepOthers(contexts, name);
      var keptClusters := KeepOthers(clusters, name);
      var keptUsers := KeepOthers(users, name);
      contexts := keptContexts;
      clusters := keptClusters;
      users := keptUsers;
    }
  }

  // ---------------------------------------------------------------- what runs keep

  ghost predicate Distinct(names: seq<string>) {
    forall i, j :: 0 <= i < j < |names| ==> names[i] != names[j]
  }

  /** One name sequence, without duplicates, in all three lists; contexts refer to their own name. */
  ghost predicate Aligned(k: Kube) {
    && Names(k.clusters) == Names(k.users) == Names(k.contexts)
    && Distinct(Names(k.clusters))
    && forall i :: 0 <= i < |k.contexts| ==>
         k.contexts[i].data == ContextData(k.contexts[i].name, k.contexts[i].name)
  }

  function DropName(names: seq<string>, name: string): (r: seq<string>) {
    if names == [] then []
    else DropName(names[..|names| - 1], name) + (if names[|names| - 1] != name then [names[|names| - 1]] else [])
  }

  lemma {:induction false} NamesOfDrop<T>(xs: seq<Named<T>>, name: string)
    ensures Names(Drop(xs, name)) == DropName(Names(xs), name)
    ensures forall x :: x in Drop(xs, name) <==> x in xs && x.name != name
  {
    if xs != [] {
      var before := xs[..|xs| - 1];
      NamesOfDrop(before, name);
      assert Names(xs)[..|xs| - 1] == Names(before);
      assert xs == before + [xs[|xs| - 1]];
    }
  }

  lemma {:induction false} DropNameKeepsOrder(names: seq<string>, name: string)
    ensures Distinct(names) ==> Distinct(DropName(names, name))
    ensures forall n :: n in DropName(names, name) <==> n in names && n != name
  {
    if names != [] {
      var before, last := names[..|names| - 1], names[|names| - 1];
      DropNameKeepsOrder(before, name);
      assert names == before + [last];
      if Distinct(names) {
        assert last !in before;
        assert last !in DropName(before, name);
      }
    }
  }

  /** Names(AddMissing) depends on the names alone. */
  lemma NamesOfAdd<T>(xs: seq<Named<T>>, x: Named<T>)
    ensures Names(AddMissing(xs, x)) == if x.name in Names(xs) then Names(xs) else Names(xs) + [x.name]
  {
  }

  lemma WithEntryAligned(k: Kube, c: Record)
    requires Aligned(k)
    ensures Aligned(WithEntry(k, c))
  {
    NamesOfAdd(k.clusters, ClusterEntry(c));
    NamesOfAdd(k.users, UserEntry(c));
    NamesOfAdd(k.contexts, ContextEntry(c));
  }

  lemma WithoutEntryAligned(k: Kube, name: string)
    requires Aligned(k)
    ensures Aligned(WithoutEntry(k, name))
  {
    NamesOfDrop(k.clusters, name);
    NamesOfDrop(k.users, name);
    DropNameKeepsOrder(Names(k.clusters), name);
    DropKeepsOwnContexts(k.contexts, name);
  }

  lemma DropKeepsOwnContexts(xs: seq<Named<ContextData>>, name: string)
    requires forall i :: 0 <= i < |xs| ==> xs[i].data == ContextData(xs[i].name, xs[i].name)
    ensures Names(Drop(xs, name)) == DropName(Names(xs), name)
    ensures forall i :: 0 <= i < |Drop(xs, name)| ==>
              Drop(xs, name)[i].data == ContextData(Drop(xs, name)[i].name, Drop(xs, name)[i].name)
  {
    NamesOfDrop(xs, name);
    forall i | 0 <= i < |Drop(xs, name)|
      ensures Drop(xs, name)[i].data == ContextData(Drop(xs, name)[i].name, Drop(xs, name)[i].name)
    {
      assert Drop(xs, name)[i] in xs;
    }
  }

  datatype Change = Add(rec: Record) | Del(name: string)

  function Changed(k: Kube, x: Change): (r: Kube) {
    match x
    case Add(rec) => WithEntry(k, rec)
    case Del(name) => WithoutEntry(k, name)
  }

  function ChangedAll(k: Kube, xs: seq<Change>): (r: Kube) {
    if xs == [] then k else Changed(ChangedAll(k, xs[..|xs| - 1]), xs[|xs| - 1])
  }

  /** Over any run of stores and removals from an empty file the three lists stay aligned. */
  lemma {:induction false} ListsStayAligned(xs: seq<Change>)
    ensures Aligned(ChangedAll(EmptyKube, xs))
  {
    if xs != [] {
      ListsStayAligned(xs[..|xs| - 1]);
      var before := ChangedAll(EmptyKube, xs[..|xs| - 1]);
      match xs[|xs| - 1]
      case Add(rec) => WithEntryAligned(before, rec);
      case Del(name) => WithoutEntryAligned(before, name);
    }
  }

  predicate SameLists(k: Kube, l: Kube) {
    k.clusters == l.clusters && k.users == l.users && k.contexts == l.contexts
  }

  lemma DropSnoc<T>(xs: seq<Named<T>>, x: Named<T>, name: string)
    ensures Drop(xs + [x], name) == if x.name != name then Drop(xs, name) + [x] else Drop(xs, name)
  {
    assert (xs + [x])[..|xs|] == xs;
  }

  lemma {:induction false} DropAbsent<T>(xs: seq<Named<T>>, name: string)
    requires forall x :: x in xs ==> x.name != name
    ensures Drop(xs, name) == xs
  {
    if xs != [] {
      var before, last := xs[..|xs| - 1], xs[|xs| - 1];
      assert xs == before + [last];
      DropAbsent(before, name);
      DropSnoc(before, last, name);
    }
  }

  lemma DropUnlisted<T>(xs: seq<Named<T>>, name: string)
    requires name !in Names(xs)
    ensures Drop(xs, name) == xs
  {
    forall x | x in xs ensures x.name != name {
      var i :| 0 <= i < |xs| && xs[i] == x;
      assert Names(xs)[i] == x.name;
    }
    DropAbsent(xs, name);
  }

  lemma DropAdd<T>(xs: seq<Named<T>>, x: Named<T>, name: string)
    ensures x.name != name ==> Drop(AddMissing(xs, x), name) == AddMissing(Drop(xs, name), x)
    ensures x.name == name ==> Drop(AddMissing(xs, x), name) == Drop(xs, name)
  {
    NamesOfDrop(xs, name);
    DropNameKeepsOrder(Names(xs), name);
    if x.name !in Names(xs) {
      assert (xs + [x])[..|xs|] == xs;
    }
  }

  /** Deleting a newly stored name gives the old lists back. */
  lemma StoreThenRemove(k: Kube, c: Record)
    requires Aligned(k) && c.name !in Names(k.clusters)
    ensures SameLists(WithoutEntry(WithEntry(k, c), c.name), k)
  {
    DropAdd(k.clusters, ClusterEntry(c), c.name);
    DropAdd(k.users, UserEntry(c), c.name);
    DropAdd(k.contexts, ContextEntry(c), c.name);
    DropUnlisted(k.clusters, c.name);
    DropUnlisted(k.users, c.name);
    DropUnlisted(k.contexts, c.name);
  }

  /** Storing one name and removing another commute. */
  lemma StoreRemoveCommute(k: Kube, c: Record, name: string)
    requires c.name != name
    ensures WithoutEntry(WithEntry(k, c), name) == WithEntry(WithoutEntry(k, name), c)
  {
    DropAdd(k.clusters, ClusterEntry(c), name);
    DropAdd(k.users, UserEntry(c), name);
    DropAdd(k.contexts, ContextEntry(c), name);
  }

  lemma {:induction false} DropsCommute<T>(xs: seq<Named<T>>, m: string, n: string)
    ensures Drop(Drop(xs, m), n) == Drop(Drop(xs, n), m)
  {
    if xs != [] {
      var before, x := xs[..|xs| - 1], xs[|xs| - 1];
      assert xs == before + [x];
      DropsCommute(before, m, n);
      DropSnoc(before, x, m);
      DropSnoc(before, x, n);
      DropSnoc(Drop(before, m), x, n);
      DropSnoc(Drop(before, n), x, m);
    }
  }

  lemma RemovesCommute(k: Kube, m: string, n: string)
    ensures WithoutEntry(WithoutEntry(k, m), n) == WithoutEntry(WithoutEntry(k, n), m)
  {
    DropsCommute(k.clusters, m, n);
    DropsCommute(k.users, m, n);
    DropsCommute(k.contexts, m, n);
  }

  lemma AddsCommute<T>(xs: seq<Named<T>>, x: Named<T>, y: Named<T>)
    requires x.name != y.name
    ensures multiset(AddMissing(AddMissing(xs, x), y)) == multiset(AddMissing(AddMissing(xs, y), x))
    ensures AddMissing(AddMissing(xs, x), y) == AddMissing(AddMissing(xs, y), x) <==> x.name in Names(xs) || y.name in Names(xs)
  {
    var a, b := AddMissing(AddMissing(xs, x), y), AddMissing(AddMissing(xs, y), x);
    NamesOfAdd(xs, x);
    NamesOfAdd(xs, y);
    if x.name !in Names(xs) && y.name !in Names(xs) {
      assert a == xs + [x] + [y] && b == xs + [y] + [x];
      assert a[|xs|] == x && b[|xs|] == y;
    }
  }

  /** Two stores of different names always leave the same entries; the lists are the same, order
      included, exactly when one of the names was already there. */
  lemma StoresCommute(k: Kube, c: Record, d: Record)
    requires Aligned(k) && c.name != d.name
    ensures var l, r := WithEntry(WithEntry(k, c), d), WithEntry(WithEntry(k, d), c);
            && multiset(l.clusters) == multiset(r.clusters)
            && multiset(l.users) == multiset(r.users)
            && multiset(l.contexts) == multiset(r.contexts)
            && (SameLists(l, r) <==> c.name in Names(k.clusters) || d.name in Names(k.clusters))
  {
    AddsCommute(k.clusters, ClusterEntry(c), ClusterEntry(d));
    AddsCommute(k.users, UserEntry(c), UserEntry(d));
    AddsCommute(k.contexts, ContextEntry(c), ContextEntry(d));
  }

  /** Storing a known name does not refresh its entries: credentials stay as first stored. */
  lemma KnownNameNotRefreshed(k: Kube, c: Record)
    requires Aligned(k) && c.name in Names(k.clusters)
    ensures SameLists(WithEntry(k, c), k)
  {
  }

  lemma AddedOrNot<T>(xs: seq<Named<T>>, x: Named<T>)
    ensures x in AddMissing(xs, x) <==> x.name !in Names(xs) || x in xs
  {
    assert x.name !in Names(xs) ==> AddMissing(xs, x)[|xs|] == x;
  }

  /** After a store the kubeconfig holds the cluster's own server, certificate and credentials if and
      only if its name was new or they were there already; its context is always right. */
  lemma StoredEntryIsOwn(k: Kube, c: Record)
    requires Aligned(k)
    ensures var l := WithEntry(k, c);
            && (ClusterEntry(c) in l.clusters <==> c.name !in Names(k.clusters) || ClusterEntry(c) in k.clusters)
            && (UserEntry(c) in l.users <==> c.name !in Names(k.clusters) || UserEntry(c) in k.users)
            && ContextEntry(c) in l.contexts
  {
    AddedOrNot(k.clusters, ClusterEntry(c));
    AddedOrNot(k.users, UserEntry(c));
    AddedOrNot(k.contexts, ContextEntry(c));
    if i :| 0 <= i < |k.contexts| && Names(k.contexts)[i] == c.name {
      assert k.contexts[i] == ContextEntry(c);
    }
  }

  /** What a store of a new name adds: one entry at the end of each list, under the name; the server is
      the endpoint with one https prefix; the user has both parts of the basic authentication when both
      are there, else the token; and the context refers to the name.  The current context stays. */
  lemma NewNameIsAdded(k: Kube, c: Record)
    requires Aligned(k) && c.name !in Names(k.clusters)
    ensures var l := WithEntry(k, c);
            var basic := c.info.username != "" && c.info.password != "";
            && l.clusters[..|k.clusters|] == k.clusters && |l.clusters| == |k.clusters| + 1
            && l.users[..|k.users|] == k.users && |l.users| == |k.users| + 1
            && l.contexts[..|k.contexts|] == k.contexts && |l.contexts| == |k.contexts| + 1
            && (var added := l.clusters[|k.clusters|];
                && added.name == c.name && added.data.certificateAuthorityData == c.info.rootCaCertificate
                && "https://" <= added.data.server
                && (added.data.server == c.info.endpoint || (!("https://" <= c.info.endpoint) && added.data.server[8..] == c.info.endpoint)))
            && l.users[|k.users|] == Named(c.name, if basic then UserData(c.info.username, c.info.password, "")
                                                   else UserData("", "", c.info.serviceAccountToken))
            && l.contexts[|k.contexts|] == Named(c.name, ContextData(c.name, c.name))
            && l.currentContext == k.currentContext && l.apiVersion == "v1" && l.kind == "Config"
  {
    assert |HTTPS| == 8;
    assert (HTTPS + c.info.endpoint)[8..] == c.info.endpoint;
  }
}
