/**
 One smooth world, in which nothing fails and the driver is the Azure one: it meets the premises of
 the results about successful creates and updates, and shows the Azure cluster created twice.
 */
module Scenarios {
  import opened Base
  import opened DriverOptions
  import opened OptionMaps
  import opened Lifecycle
  import opened Runs
  import opened Attempts
  import opened Recovery
  import opened AksState
  import opened AksIdentity

  const CALM := Cloud((s: State) => None, (s: State) => "", (t: nat) => None)

  /** PostCheck always adds a root certificate. */
  const SMOOTH := Env(
    (t: nat) => Written,
    (t: nat) => ReadReply(true, false),
    (t: nat) => Ok(NoOptions),
    (t: nat, text: string) => None,
    (v: Json) => "",
    (t: nat, o: Options, prior: Option<Info>) => CreateOrUpdate(CALM, t, o),
    (t: nat, info: Info, o: Options) => UpdateReply(CreateOrUpdate(CALM, t, o)),
    (t: nat, info: Info) => Ok(info.(rootCaCertificate := "ca")),
    (t: nat, info: Info, o: Options, snapshot: string) => Err("not implemented"),
    (t: nat, info: Info) => None)

  lemma SmoothIsAks()
    ensures IsAks(SMOOTH, CALM) && ReadsBack(SMOOTH) && AlwaysWrites(SMOOTH) && AlwaysConfigured(SMOOTH)
  {
    hide CreateOrUpdate, UpdateReply;
  }

  /** In this world a first create returns nil, and leaves a handle that shows an interrupted create
      when the process stops before the last status write. */
  lemma FirstCreate(n: string, driverName: string)
    ensures var k := Create(NewHandle(n, driverName), [], SMOOTH);
            && k.failure.None?
            && |k.journal| > 0
            && n in Records(k.journal[..|k.journal| - 1])
            && Interrupted(Records(k.journal[..|k.journal| - 1])[n])
            && Established(k.journal, n)
            && CreatesBetween([], k.journal, n)
  {
    SmoothIsAks();
    var c := NewHandle(n, driverName);
    CreateCallsDriver(c, [], SMOOTH);
    FirstCreateSucceeds(c);
    CreateReturnsNil(c, [], SMOOTH);
  }

  lemma FirstCreateSucceeds(c: Record)
    requires c == NewHandle(c.name, c.driverName)
    ensures Create(c, [], SMOOTH).failure.None?
    ensures var k := Create(c, [], SMOOTH).journal; |k| > 0 && c.name in Records(k[..|k| - 1]) && Interrupted(Records(k[..|k| - 1])[c.name])
  {
    hide StateFromOptions, CreateOptions;
    var inner := CreateInner(c, [], SMOOTH);
    var created := CreateWithDriver(c, None, Restore(c, [], SMOOTH).journal, SMOOTH);
    assert created.failure.None? && created.handle.info.status.Blank?;
    assert inner.failure.None?;
    assert Create(c, [], SMOOTH).journal[..|inner.journal|] == inner.journal;
  }

  lemma UpdateSucceeds(c: Record, j: Journal)
    requires Established(j, c.name)
    ensures Update(c, j, SMOOTH).failure.None?
  {
    hide StateFromOptions, DriverOptionsOf;
  }

  /** Create, update and create again, each returning as it should and none of them removing the
      cluster: Driver.Create is called by both creates. */
  lemma CreatedTwice(n: string, driverName: string)
    ensures var first := Create(NewHandle(n, driverName), [], SMOOTH);
            var second := Update(NewHandle(n, driverName), first.journal, SMOOTH);
            var third := Create(NewHandle(n, driverName), second.journal, SMOOTH);
            && first.failure.None? && CreatesBetween([], first.journal, n)
            && second.failure.None?
            && CreatesBetween(second.journal, third.journal, n)
  {
    hide Create, Update, Records, CreatesBetween, IsAks, Interrupted;
    var c := NewHandle(n, driverName);
    var j := Create(c, [], SMOOTH).journal;
    SmoothIsAks();
    FirstCreate(n, driverName);
    UpdateSucceeds(c, j);
    UpdateForgetsStatus(c, driverName, j, SMOOTH, CALM);
  }

  lemma StoppedWhileCreating(c: Record)
    requires c == NewHandle(c.name, c.driverName)
    ensures var k := Create(c, [], SMOOTH).journal;
            |k| > 4 && c.name in Records(k[..4]) && Records(k[..4])[c.name].info.status.Creating?
  {
    hide StateFromOptions, CreateOptions, PostCheck, CallCreate;
    var j1 := Log([], Read(c.name));
    var j2 := Log(j1, StatusWritten(WithStatus(c, PreCreating), true));
    var j3 := Log(j2, Configured(c.name));
    var j4 := Log(j3, StatusWritten(WithStatus(c, Creating), true));
    assert j4 <= CreateSteps(c, None, j1, SMOOTH).journal;
    assert Restore(c, [], SMOOTH).journal == j1 && Restore(c, [], SMOOTH).handle == c;
    assert CreateSteps(c, None, j1, SMOOTH).journal <= CreateInner(c, [], SMOOTH).journal <= Create(c, [], SMOOTH).journal;
    assert Create(c, [], SMOOTH).journal[..4] == j4;
  }

  /** The process stops right before Driver.Create: the record says Creating, and when the create is
      tried again Driver.Create is called and told of no earlier attempt. */
  lemma InterruptedCreate(n: string, driverName: string)
    ensures var c := NewHandle(n, driverName);
            var k := Create(c, [], SMOOTH).journal;
            && |k| > 4
            && var stopped := k[..4];
               && n in Records(stopped) && Records(stopped)[n].info.status.Creating?
               && CreatesBetween(stopped, Create(c, stopped, SMOOTH).journal, n)
               && Told(stopped, Create(c, stopped, SMOOTH).journal, None)
  {
    hide Create, Records, CreatesBetween, Told;
    var c := NewHandle(n, driverName);
    StoppedWhileCreating(c);
    InterruptedCreateIsForgotten(c, Create(c, [], SMOOTH).journal[..4], SMOOTH);
  }
}
