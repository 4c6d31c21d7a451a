/**
 Log streams as interleaved steps of any number of writers, closers, creators and lookups, and one
 reader for each stream.  Each step is one access to shared memory, a lock or a channel.
 */
module LogStream {
  import opened Base

  datatype LogEvent = LogEvent(error: bool, message: string)

  /** A stream object: its fields, its mutex and channel, and what went in and out of the channel. */
  datatype Stream = Stream(
    id: int,
    closed: bool,
    holder: Option<nat>,       // the thread that holds the stream's mutex
    channelClosed: bool,
    buffer: seq<LogEvent>,
    sent: seq<LogEvent>,       // in the order of the sends, made under the mutex
    received: seq<LogEvent>,
    registered: bool,          // it has been entered in the registry
    gone: bool)                // a call of Close has taken it out of the registry

  const CAPACITY := 100

  type Ref = nat

  /** Where a thread stands in a call. */
  datatype Pc =
    | WriteLock(s: Ref, e: LogEvent) | WriteTest(s: Ref, e: LogEvent) | WriteSend(s: Ref, e: LogEvent) | WriteUnlock(s: Ref)
    | CloseLock(s: Ref) | CloseTest(s: Ref) | CloseChannel(s: Ref) | CloseSet(s: Ref) | CloseUnlock(s: Ref)
    | DeleteLock(s: Ref) | DeleteEntry(s: Ref) | DeleteUnlock(s: Ref)
    | NewCount | NewMake(id: int) | InsertLock(s: Ref) | InsertEntry(s: Ref) | InsertUnlock(s: Ref)
    | GetLock(id: int) | GetEntry(id: int) | GetUnlock(id: int, found: Option<Ref>)

  datatype System = System(
    streams: seq<Stream>,
    logs: map<int, Ref>,       // the registry
    lock: Option<nat>,         // the thread that holds the registry's mutex
    counter: int,
    issued: map<int, nat>,     // the thread each identifier was given to
    threads: map<nat, Pc>,     // the calls in progress
    panicked: bool)            // a send on, or a close of, a closed channel

  const Start := System([], map[], None, 1, map[], map[], false)

  datatype Step = Begin(t: nat, pc: Pc) | Go(t: nat) | Receive(s: Ref)

  /** A call begins; only streams that were handed out can be written or closed. */
  predicate CanBegin(sys: System, t: nat, pc: Pc) {
    && t !in sys.threads
    && match pc
       case WriteLock(s, _) => s < |sys.streams| && sys.streams[s].registered
       case CloseLock(s) => s < |sys.streams| && sys.streams[s].registered
       case NewCount => true
       case GetLock(_) => true
       case _ => false
  }

  /** The thread can take its next step: it does not wait for a mutex or for room in a channel. */
  predicate CanGo(sys: System, t: nat) {
    && t in sys.threads
    && match sys.threads[t]
       case WriteLock(s, _) => s < |sys.streams| && sys.streams[s].holder.None?
       case CloseLock(s) => s < |sys.streams| && sys.streams[s].holder.None?
       case WriteSend(s, _) => s < |sys.streams| && (sys.streams[s].channelClosed || |sys.streams[s].buffer| < CAPACITY)
       case DeleteLock(s) => s < |sys.streams| && sys.lock.None?
       case InsertLock(s) => s < |sys.streams| && sys.lock.None?
       case GetLock(_) => sys.lock.None?
       case NewCount => true
       case NewMake(_) => true
       case GetEntry(_) => true
       case GetUnlock(_, _) => true
       case pc => pc.s < |sys.streams|
  }

  predicate CanReceive(sys: System, s: Ref) {
    s < |sys.streams| && sys.streams[s].buffer != []
  }

  predicate Enabled(sys: System, step: Step) {
    match step
    case Begin(t, pc) => CanBegin(sys, t, pc)
    case Go(t) => CanGo(sys, t)
    case Receive(s) => CanReceive(sys, s)
  }

  function At(sys: System, t: nat, pc: Pc): (r: System) {
    sys.(threads := sys.threads[t := pc])
  }

  function Ended(sys: System, t: nat): (r: System) {
    sys.(threads := sys.threads - {t})
  }

  function With(sys: System, s: Ref, stream: Stream): (r: System)
    requires s < |sys.streams|
  {
    sys.(streams := sys.streams[s := stream])
  }

  function Advance(sys: System, t: nat): (r: System)
    requires CanGo(sys, t)
  {
    match sys.threads[t]
    // write
    case WriteLock(s, e) => At(With(sys, s, sys.streams[s].(holder := Some(t))), t, WriteTest(s, e))
    case WriteTest(s, e) => At(sys, t, if sys.streams[s].closed then WriteUnlock(s) else WriteSend(s, e))
    case WriteSend(s, e) =>
      var x := sys.streams[s];
      if x.channelClosed then sys.(panicked := true)
      else At(With(sys, s, x.(buffer := x.buffer + [e], sent := x.sent + [e])), t, WriteUnlock(s))
    case WriteUnlock(s) => Ended(With(sys, s, sys.streams[s].(holder := None)), t)
    // Close
    case CloseLock(s) => At(With(sys, s, sys.streams[s].(holder := Some(t))), t, CloseTest(s))
    case CloseTest(s) => At(sys, t, if sys.streams[s].closed then CloseUnlock(s) else CloseChannel(s))
    case CloseChannel(s) =>
      if sys.streams[s].channelClosed then sys.(panicked := true)
      else At(With(sys, s, sys.streams[s].(channelClosed := true)), t, CloseSet(s))
    case CloseSet(s) => At(With(sys, s, sys.streams[s].(closed := true)), t, CloseUnlock(s))
    case CloseUnlock(s) => At(With(sys, s, sys.streams[s].(holder := None)), t, DeleteLock(s))
    case DeleteLock(s) => At(sys.(lock := Some(t)), t, DeleteEntry(s))
    case DeleteEntry(s) =>
      At(With(sys.(logs := sys.logs - {sys.streams[s].id}), s, sys.streams[s].(gone := true)), t, DeleteUnlock(s))
    case DeleteUnlock(s) => Ended(sys.(lock := None), t)
    // NewLogStream
    case NewCount => 
      At(sys.(counter := sys.counter + 1, issued := sys.issued[sys.counter + 1 := t]), t, NewMake(sys.counter + 1))
    case NewMake(id) =>
      At(sys.(streams := sys.streams + [Stream(id, false, None, false, [], [], [], false, false)]), t, InsertLock(|sys.streams|))
    case InsertLock(s) => At(sys.(lock := Some(t)), t, InsertEntry(s))
    case InsertEntry(s) =>
      At(With(sys.(logs := sys.logs[sys.streams[s].id := s]), s, sys.streams[s].(registered := true)), t, InsertUnlock(s))
    case InsertUnlock(s) => Ended(sys.(lock := None), t)
    // GetLogStream
    case GetLock(id) => At(sys.(lock := Some(t)), t, GetEntry(id))
    case GetEntry(id) => At(sys, t, GetUnlock(id, if id in sys.logs then Some(sys.logs[id]) else None))
    case GetUnlock(_, _) => Ended(sys.(lock := None), t)
  }

  function Taken(sys: System, s: Ref): (r: System)
    requires CanReceive(sys, s)
  {
    var x := sys.streams[s];
    With(sys, s, x.(buffer := x.buffer[1..], received := x.received + [x.buffer[0]]))
  }

  function Next(sys: System, step: Step): (r: System)
    requires Enabled(sys, step)
  {
    match step
    case Begin(t, pc) => At(sys, t, pc)
    case Go(t) => Advance(sys, t)
    case Receive(s) => Taken(sys, s)
  }

  /** The states of a run: each step is taken where it is enabled, and skipped elsewhere. */
  function Run(steps: seq<Step>): (r: System) {
    if steps == [] then Start
    else
      var before := Run(steps[..|steps| - 1]);
      if Enabled(before, steps[|steps| - 1]) then Next(before, steps[|steps| - 1]) else before
  }

  // ---------------------------------------------------------------- invariants

  predicate HoldsStream(pc: Pc, s: Ref) {
    match pc
    case WriteTest(r, _) => r == s
    case WriteSend(r, _) => r == s
    case WriteUnlock(r) => r == s
    case CloseTest(r) => r == s
    case CloseChannel(r) => r == s
    case CloseSet(r) => r == s
    case CloseUnlock(r) => r == s
    case _ => false
  }

  predicate HoldsRegistry(pc: Pc) {
    pc.DeleteEntry? || pc.DeleteUnlock? || pc.InsertEntry? || pc.InsertUnlock? || pc.GetEntry? || pc.GetUnlock?
  }

  /** The stream was handed out. */
  predicate Shared(sys: System, s: Ref) {
    s < |sys.streams| && sys.streams[s].registered
  }

  predicate Guarded(sys: System, s: Ref, t: nat) {
    Shared(sys, s) && sys.streams[s].holder == Some(t)
  }

  /** The thread made the stream and alone knows it. */
  predicate Private(sys: System, s: Ref, t: nat) {
    && s < |sys.streams| && !sys.streams[s].registered
    && sys.streams[s].id in sys.issued && sys.issued[sys.streams[s].id] == t
  }

  /** What a thread may rely on at each point of a call. */
  ghost predicate ThreadOk(sys: System, t: nat, pc: Pc) {
    match pc
    case WriteLock(s, _) => Shared(sys, s)
    case WriteTest(s, _) => Guarded(sys, s, t)
    case WriteSend(s, _) => Guarded(sys, s, t) && !sys.streams[s].closed && !sys.streams[s].channelClosed
    case WriteUnlock(s) => Guarded(sys, s, t)
    case CloseLock(s) => Shared(sys, s)
    case CloseTest(s) => Guarded(sys, s, t)
    case CloseChannel(s) => Guarded(sys, s, t) && !sys.streams[s].closed && !sys.streams[s].channelClosed
    case CloseSet(s) => Guarded(sys, s, t) && !sys.streams[s].closed && sys.streams[s].channelClosed
    case CloseUnlock(s) => Guarded(sys, s, t) && sys.streams[s].closed
    case DeleteLock(s) => Shared(sys, s)
    case DeleteEntry(s) => Shared(sys, s) && sys.lock == Some(t)
    case DeleteUnlock(s) => Shared(sys, s) && sys.lock == Some(t) && sys.streams[s].gone
    case NewCount => true
    case NewMake(id) =>
      && id in sys.issued && sys.issued[id] == t
      && forall s :: 0 <= s < |sys.streams| ==> sys.streams[s].id != id
    case InsertLock(s) => Private(sys, s, t)
    case InsertEntry(s) => Private(sys, s, t) && sys.lock == Some(t)
    case InsertUnlock(s) => Shared(sys, s) && sys.lock == Some(t)
    case GetLock(_) => true
    case GetEntry(_) => sys.lock == Some(t)
    case GetUnlock(id, found) => sys.lock == Some(t) && (found.Some? ==> Shared(sys, found.value) && sys.streams[found.value].id == id)
  }

  /** The mutex is held by a thread inside it; the closed flag trails the channel only there;
      nothing is lost, duplicated or reordered in the channel, whose buffer is bounded; and a
      stream is in the registry from when it was entered until it is gone. */
  ghost predicate StreamOk(sys: System, s: Ref)
    requires s < |sys.streams|
  {
    var x := sys.streams[s];
    && x.id in sys.issued
    && (x.holder.Some? ==> x.holder.value in sys.threads && HoldsStream(sys.threads[x.holder.value], s))
    && (x.closed ==> x.channelClosed)
    && (x.channelClosed && !x.closed ==> x.holder.Some? && x.holder.value in sys.threads && sys.threads[x.holder.value] == CloseSet(s))
    && x.sent == x.received + x.buffer
    && |x.buffer| <= CAPACITY
    && (x.gone ==> x.registered && x.id !in sys.logs)
    && (x.registered && !x.gone <==> x.id in sys.logs && sys.logs[x.id] == s)
  }

  /** Identifiers are never reused, the registry maps an identifier only to its own stream, and its
      mutex is held by a thread inside it. */
  ghost predicate RegistryOk(sys: System) {
    && (forall id :: id in sys.issued ==> id <= sys.counter)
    && (forall r, s :: 0 <= r < s < |sys.streams| ==> sys.streams[r].id != sys.streams[s].id)
    && (forall id :: id in sys.logs ==> Shared(sys, sys.logs[id]) && sys.streams[sys.logs[id]].id == id)
    && (sys.lock.Some? ==> sys.lock.value in sys.threads && HoldsRegistry(sys.threads[sys.lock.value]))
  }

  ghost predicate Inv(sys: System) {
    && (forall t :: t in sys.threads ==> ThreadOk(sys, t, sys.threads[t]))
    && (forall s: Ref :: s < |sys.streams| ==> StreamOk(sys, s))
    && RegistryOk(sys)
    && !sys.panicked
  }

  predicate OnWrite(pc: Pc) {
    pc.WriteLock? || pc.WriteTest? || pc.WriteSend? || pc.WriteUnlock?
  }

  predicate OnClose(pc: Pc) {
    pc.CloseLock? || pc.CloseTest? || pc.CloseChannel? || pc.CloseSet? || pc.CloseUnlock?
  }

  predicate OnRegistry(pc: Pc) {
    || pc.DeleteLock? || pc.DeleteEntry? || pc.DeleteUnlock?
    || pc.InsertLock? || pc.InsertEntry? || pc.InsertUnlock?
    || pc.GetLock? || pc.GetEntry? || pc.GetUnlock?
  }

  // ---- what other threads rely on

  lemma OthersThroughStream(sys: System, s: Ref, x: Stream, u: nat, pc: Pc)
    requires s < |sys.streams| && ThreadOk(sys, u, pc)
    requires x.id == sys.streams[s].id && (sys.streams[s].gone ==> x.gone)
    requires x.registered == sys.streams[s].registered || (!Private(sys, s, u) && x.registered)
    requires sys.streams[s].holder == Some(u) ==>
               x.holder == Some(u) && x.closed == sys.streams[s].closed && x.channelClosed == sys.streams[s].channelClosed
    ensures ThreadOk(With(sys, s, x), u, pc)
  {
  }

  lemma OthersThroughLock(sys: System, lock: Option<nat>, u: nat, pc: Pc)
    requires ThreadOk(sys, u, pc) && sys.lock != Some(u)
    ensures ThreadOk(sys.(lock := lock), u, pc)
  {
  }

  lemma OthersThroughIssue(sys: System, t: nat, u: nat, pc: Pc)
    requires ThreadOk(sys, u, pc) && sys.counter + 1 !in sys.issued
    ensures ThreadOk(sys.(counter := sys.counter + 1, issued := sys.issued[sys.counter + 1 := t]), u, pc)
  {
  }

  lemma OthersThroughMaking(sys: System, x: Stream, u: nat, pc: Pc)
    requires ThreadOk(sys, u, pc) && (pc.NewMake? ==> pc.id != x.id)
    ensures ThreadOk(sys.(streams := sys.streams + [x]), u, pc)
  {
  }

  lemma OthersThroughRest(sys: System, next: System, u: nat, pc: Pc)
    requires ThreadOk(sys, u, pc)
    requires next.streams == sys.streams && next.lock == sys.lock && next.issued == sys.issued
    ensures ThreadOk(next, u, pc)
  {
  }

  /** What a step of a write or close may do to its stream, seen by other threads. */
  ghost predicate OnlyStream(sys: System, next: System, s: Ref, t: nat)
    requires s < |sys.streams|
  {
    && |next.streams| == |sys.streams| && next.streams == sys.streams[s := next.streams[s]]
    && next.lock == sys.lock && next.issued == sys.issued
    && next.streams[s].id == sys.streams[s].id && next.streams[s].gone == sys.streams[s].gone
    && next.streams[s].registered == sys.streams[s].registered
    && (sys.streams[s].holder.Some? ==> sys.streams[s].holder == Some(t))
  }

  lemma WriteStepStreamOnly(sys: System, t: nat)
    requires CanGo(sys, t) && OnWrite(sys.threads[t]) && ThreadKnows(sys, t, sys.threads[t].s)
    ensures OnlyStream(sys, Advance(sys, t), sys.threads[t].s, t)
  {
  }

  lemma CloseStepStreamOnly(sys: System, t: nat)
    requires CanGo(sys, t) && OnClose(sys.threads[t]) && ThreadKnows(sys, t, sys.threads[t].s)
    ensures OnlyStream(sys, Advance(sys, t), sys.threads[t].s, t)
  {
  }

  lemma StreamStepOthers(sys: System, t: nat, u: nat, pc: Pc)
    requires CanGo(sys, t) && ThreadOk(sys, t, sys.threads[t]) && u != t && ThreadOk(sys, u, pc)
    requires OnWrite(sys.threads[t]) || OnClose(sys.threads[t])
    ensures ThreadOk(Advance(sys, t), u, pc)
  {
    hide ThreadOk, Advance;
    Knows(sys, t);
    var next, s := Advance(sys, t), sys.threads[t].s;
    if OnWrite(sys.threads[t]) {
      WriteStepStreamOnly(sys, t);
    } else {
      CloseStepStreamOnly(sys, t);
    }
    OthersThroughStream(sys, s, next.streams[s], u, pc);
    OthersThroughRest(With(sys, s, next.streams[s]), next, u, pc);
  }

  /** Between lock and unlock the mutex is the thread's; before the lock it is free. */
  predicate ThreadKnows(sys: System, t: nat, s: Ref) {
    s < |sys.streams| && (sys.streams[s].holder == Some(t) || sys.streams[s].holder.None?)
  }

  lemma Knows(sys: System, t: nat)
    requires CanGo(sys, t) && ThreadOk(sys, t, sys.threads[t])
    requires OnWrite(sys.threads[t]) || OnClose(sys.threads[t])
    ensures ThreadKnows(sys, t, sys.threads[t].s)
    ensures sys.threads[t].WriteSend? || sys.threads[t].CloseChannel? ==> !sys.streams[sys.threads[t].s].channelClosed
  {
  }

  /** Inside the registry's mutex it is the thread's; before it, it is free; and a stream about to
      be entered is private. */
  lemma RegistryKnows(sys: System, t: nat)
    requires CanGo(sys, t) && ThreadOk(sys, t, sys.threads[t]) && OnRegistry(sys.threads[t])
    ensures HoldsRegistry(sys.threads[t]) ==> sys.lock == Some(t)
    ensures !HoldsRegistry(sys.threads[t]) ==> sys.lock.None?
    ensures sys.threads[t].InsertEntry? ==> Private(sys, sys.threads[t].s, t)
    ensures sys.threads[t].DeleteEntry? ==> Shared(sys, sys.threads[t].s)
  {
  }

  lemma EntryStepOthers(sys: System, t: nat, u: nat, pc: Pc)
    requires CanGo(sys, t) && ThreadOk(sys, t, sys.threads[t]) && u != t && ThreadOk(sys, u, pc)
    requires sys.threads[t].DeleteEntry? || sys.threads[t].InsertEntry?
    ensures ThreadOk(Advance(sys, t), u, pc)
  {
    hide ThreadOk;
    RegistryKnows(sys, t);
    var next, s := Advance(sys, t), sys.threads[t].s;
    OthersThroughStream(sys, s, next.streams[s], u, pc);
    assert next.streams == With(sys, s, next.streams[s]).streams;
    OthersThroughRest(With(sys, s, next.streams[s]), next, u, pc);
  }

  lemma RegistryStepOthers(sys: System, t: nat, u: nat, pc: Pc)
    requires CanGo(sys, t) && ThreadOk(sys, t, sys.threads[t]) && u != t && ThreadOk(sys, u, pc)
    requires OnRegistry(sys.threads[t])
    ensures ThreadOk(Advance(sys, t), u, pc)
  {
    hide ThreadOk;
    RegistryKnows(sys, t);
    var next, mine := Advance(sys, t), sys.threads[t];
    if mine.DeleteEntry? || mine.InsertEntry? {
      EntryStepOthers(sys, t, u, pc);
    } else if mine.GetEntry? {
      OthersThroughRest(sys, next, u, pc);
    } else {
      OthersThroughLock(sys, next.lock, u, pc);
      OthersThroughRest(sys.(lock := next.lock), next, u, pc);
    }
  }

  lemma AdvanceOthers(sys: System, t: nat, u: nat)
    requires Inv(sys) && CanGo(sys, t) && u in sys.threads && u != t
    ensures u in Advance(sys, t).threads && Advance(sys, t).threads[u] == sys.threads[u]
    ensures ThreadOk(Advance(sys, t), u, sys.threads[u])
  {
    hide ThreadOk, StreamOk;
    var mine, pc := sys.threads[t], sys.threads[u];
    if OnWrite(mine) {
      StreamStepOthers(sys, t, u, pc);
    } else if OnClose(mine) {
      StreamStepOthers(sys, t, u, pc);
    } else if mine.NewCount? {
      OthersThroughIssue(sys, t, u, pc);
      OthersThroughRest(sys.(counter := sys.counter + 1, issued := sys.issued[sys.counter + 1 := t]), Advance(sys, t), u, pc);
    } else if mine.NewMake? {
      var x := Stream(mine.id, false, None, false, [], [], [], false, false);
      NewIdsDiffer(sys, t, u);
      OthersThroughMaking(sys, x, u, pc);
      OthersThroughRest(sys.(streams := sys.streams + [x]), Advance(sys, t), u, pc);
    } else {
      RegistryStepOthers(sys, t, u, pc);
    }
  }

  lemma NewIdsDiffer(sys: System, t: nat, u: nat)
    requires t in sys.threads && u in sys.threads && t != u
    requires ThreadOk(sys, t, sys.threads[t]) && ThreadOk(sys, u, sys.threads[u])
    ensures sys.threads[t].NewMake? && sys.threads[u].NewMake? ==> sys.threads[t].id != sys.threads[u].id
  {
  }

  lemma NextIdIsNew(sys: System)
    requires Inv(sys)
    ensures sys.counter + 1 !in sys.issued && forall s :: 0 <= s < |sys.streams| ==> sys.streams[s].id != sys.counter + 1
  {
    forall s: Ref | s < |sys.streams| ensures sys.streams[s].id != sys.counter + 1 {
      assert StreamOk(sys, s);
    }
  }

  lemma WriteStepOwn(sys: System, t: nat)
    requires CanGo(sys, t) && ThreadOk(sys, t, sys.threads[t]) && OnWrite(sys.threads[t]) && FlagsAgree(sys, t)
    ensures t in Advance(sys, t).threads ==> ThreadOk(Advance(sys, t), t, Advance(sys, t).threads[t])
  {
  }

  lemma CloseStepOwn(sys: System, t: nat)
    requires CanGo(sys, t) && ThreadOk(sys, t, sys.threads[t]) && OnClose(sys.threads[t]) && FlagsAgree(sys, t)
    ensures t in Advance(sys, t).threads ==> ThreadOk(Advance(sys, t), t, Advance(sys, t).threads[t])
  {
  }

  predicate OnDelete(pc: Pc) {
    pc.DeleteLock? || pc.DeleteEntry? || pc.DeleteUnlock?
  }

  predicate OnInsert(pc: Pc) {
    pc.InsertLock? || pc.InsertEntry? || pc.InsertUnlock?
  }

  lemma DeleteStepOwn(sys: System, t: nat)
    requires CanGo(sys, t) && ThreadOk(sys, t, sys.threads[t]) && OnDelete(sys.threads[t])
    ensures t in Advance(sys, t).threads ==> ThreadOk(Advance(sys, t), t, Advance(sys, t).threads[t])
  {
  }

  lemma InsertStepOwn(sys: System, t: nat)
    requires CanGo(sys, t) && ThreadOk(sys, t, sys.threads[t]) && OnInsert(sys.threads[t])
    ensures t in Advance(sys, t).threads ==> ThreadOk(Advance(sys, t), t, Advance(sys, t).threads[t])
  {
  }

  lemma LookupStepOwn(sys: System, t: nat)
    requires CanGo(sys, t) && ThreadOk(sys, t, sys.threads[t]) && RegistryOk(sys)
    requires sys.threads[t].GetLock? || sys.threads[t].GetEntry? || sys.threads[t].GetUnlock?
    ensures t in Advance(sys, t).threads ==> ThreadOk(Advance(sys, t), t, Advance(sys, t).threads[t])
  {
  }

  lemma RegistryStepOwn(sys: System, t: nat)
    requires CanGo(sys, t) && ThreadOk(sys, t, sys.threads[t]) && OnRegistry(sys.threads[t]) && RegistryOk(sys)
    ensures t in Advance(sys, t).threads ==> ThreadOk(Advance(sys, t), t, Advance(sys, t).threads[t])
  {
    hide Advance, ThreadOk, RegistryOk;
    if OnDelete(sys.threads[t]) {
      DeleteStepOwn(sys, t);
    } else if OnInsert(sys.threads[t]) {
      InsertStepOwn(sys, t);
    } else {
      LookupStepOwn(sys, t);
    }
  }

  /** What the thread itself relies on next. */
  lemma AdvanceOwn(sys: System, t: nat)
    requires Inv(sys) && CanGo(sys, t) && t in Advance(sys, t).threads
    ensures ThreadOk(Advance(sys, t), t, Advance(sys, t).threads[t])
  {
    hide StreamOk, RegistryOk;
    assert ThreadOk(sys, t, sys.threads[t]);
    if OnWrite(sys.threads[t]) {
      OwnFlags(sys, t);
      WriteStepOwn(sys, t);
    } else if OnClose(sys.threads[t]) {
      OwnFlags(sys, t);
      CloseStepOwn(sys, t);
    } else if OnRegistry(sys.threads[t]) {
      RegistryStepOwn(sys, t);
    } else {
      NextIdIsNew(sys);
      NewStepOwn(sys, t);
    }
  }

  lemma NewStepOwn(sys: System, t: nat)
    requires CanGo(sys, t) && ThreadOk(sys, t, sys.threads[t]) && (sys.threads[t].NewCount? || sys.threads[t].NewMake?)
    requires forall s :: 0 <= s < |sys.streams| ==> sys.streams[s].id != sys.counter + 1
    ensures t in Advance(sys, t).threads ==> ThreadOk(Advance(sys, t), t, Advance(sys, t).threads[t])
  {
  }

  /** Under the mutex the closed flag says whether the channel is closed. */
  predicate FlagsAgree(sys: System, t: nat)
    requires t in sys.threads && (OnWrite(sys.threads[t]) || OnClose(sys.threads[t]))
  {
    var s := sys.threads[t].s;
    && s < |sys.streams|
    && (sys.threads[t].WriteTest? || sys.threads[t].CloseTest? ==> sys.streams[s].closed == sys.streams[s].channelClosed)
  }

  lemma OwnFlags(sys: System, t: nat)
    requires Inv(sys) && CanGo(sys, t) && (OnWrite(sys.threads[t]) || OnClose(sys.threads[t]))
    ensures FlagsAgree(sys, t)
  {
    hide RegistryOk;
    assert ThreadOk(sys, t, sys.threads[t]);
    assert StreamOk(sys, sys.threads[t].s);
  }

  // ---- what is kept of the streams

  lemma OtherStreams(sys: System, next: System, t: nat, r: Ref)
    requires r < |sys.streams| && StreamOk(sys, r) && r < |next.streams| && next.streams[r] == sys.streams[r]
    requires t in sys.threads && !HoldsStream(sys.threads[t], r)
    requires forall u :: u in sys.threads && u != t ==> u in next.threads && next.threads[u] == sys.threads[u]
    requires forall id :: id in sys.issued ==> id in next.issued
    requires next.logs == sys.logs
    ensures StreamOk(next, r)
  {
  }

  lemma WriteStepStream(sys: System, t: nat)
    requires CanGo(sys, t) && ThreadOk(sys, t, sys.threads[t]) && OnWrite(sys.threads[t]) && StreamOk(sys, sys.threads[t].s)
    ensures StreamOk(Advance(sys, t), sys.threads[t].s)
  {
  }

  lemma CloseStepStream(sys: System, t: nat)
    requires CanGo(sys, t) && ThreadOk(sys, t, sys.threads[t]) && OnClose(sys.threads[t]) && StreamOk(sys, sys.threads[t].s)
    ensures StreamOk(Advance(sys, t), sys.threads[t].s)
  {
  }

  lemma EntryStepStream(sys: System, t: nat, r: Ref)
    requires CanGo(sys, t) && ThreadOk(sys, t, sys.threads[t]) && RegistryOk(sys)
    requires sys.threads[t].DeleteEntry? || sys.threads[t].InsertEntry?
    requires r < |sys.streams| && StreamOk(sys, r)
    ensures StreamOk(Advance(sys, t), r)
  {
  }

  lemma LockStepStream(sys: System, t: nat, r: Ref)
    requires CanGo(sys, t) && OnRegistry(sys.threads[t]) && !sys.threads[t].DeleteEntry? && !sys.threads[t].InsertEntry?
    requires r < |sys.streams| && StreamOk(sys, r)
    ensures StreamOk(Advance(sys, t), r)
  {
  }

  lemma RegistryStepStream(sys: System, t: nat, r: Ref)
    requires CanGo(sys, t) && ThreadOk(sys, t, sys.threads[t]) && OnRegistry(sys.threads[t])
    requires r < |sys.streams| && StreamOk(sys, r) && RegistryOk(sys)
    ensures r < |Advance(sys, t).streams| && StreamOk(Advance(sys, t), r)
  {
    hide Advance, ThreadOk, StreamOk, RegistryOk;
    AdvanceFrame(sys, t);
    if sys.threads[t].DeleteEntry? || sys.threads[t].InsertEntry? {
      EntryStepStream(sys, t, r);
    } else {
      LockStepStream(sys, t, r);
    }
  }

  // ---- what no step of a thread changes

  lemma AdvanceThreads(sys: System, t: nat)
    requires CanGo(sys, t)
    ensures forall u :: u in sys.threads && u != t ==> u in Advance(sys, t).threads && Advance(sys, t).threads[u] == sys.threads[u]
  {
  }

  lemma AdvanceMaps(sys: System, t: nat)
    requires CanGo(sys, t)
    ensures forall id :: id in sys.issued ==> id in Advance(sys, t).issued
    ensures !OnRegistry(sys.threads[t]) ==> Advance(sys, t).logs == sys.logs
  {
  }

  lemma AdvanceCount(sys: System, t: nat)
    requires CanGo(sys, t)
    ensures |Advance(sys, t).streams| == |sys.streams| + (if sys.threads[t].NewMake? then 1 else 0)
  {
  }

  lemma WriteElsewhere(sys: System, t: nat, r: Ref)
    requires CanGo(sys, t) && OnWrite(sys.threads[t]) && r < |sys.streams| && r != StreamOf(sys.threads[t])
    ensures r < |Advance(sys, t).streams| && Advance(sys, t).streams[r] == sys.streams[r]
  {
  }

  lemma CloseElsewhere(sys: System, t: nat, r: Ref)
    requires CanGo(sys, t) && OnClose(sys.threads[t]) && r < |sys.streams| && r != StreamOf(sys.threads[t])
    ensures r < |Advance(sys, t).streams| && Advance(sys, t).streams[r] == sys.streams[r]
  {
  }

  lemma RegistryElsewhere(sys: System, t: nat, r: Ref)
    requires CanGo(sys, t) && !OnWrite(sys.threads[t]) && !OnClose(sys.threads[t])
    requires r < |sys.streams| && r != StreamOf(sys.threads[t])
    ensures r < |Advance(sys, t).streams| && Advance(sys, t).streams[r] == sys.streams[r]
  {
  }

  lemma AdvanceElsewhere(sys: System, t: nat, r: Ref)
    requires CanGo(sys, t) && r < |sys.streams| && r != StreamOf(sys.threads[t])
    ensures r < |Advance(sys, t).streams| && Advance(sys, t).streams[r] == sys.streams[r]
  {
    hide Advance, StreamOf;
    if OnWrite(sys.threads[t]) {
      WriteElsewhere(sys, t, r);
    } else if OnClose(sys.threads[t]) {
      CloseElsewhere(sys, t, r);
    } else {
      RegistryElsewhere(sys, t, r);
    }
  }

  /** What no step of a thread changes. */
  lemma AdvanceFrame(sys: System, t: nat)
    requires CanGo(sys, t)
    ensures forall u :: u in sys.threads && u != t ==> u in Advance(sys, t).threads && Advance(sys, t).threads[u] == sys.threads[u]
    ensures forall id :: id in sys.issued ==> id in Advance(sys, t).issued
    ensures !OnRegistry(sys.threads[t]) ==> Advance(sys, t).logs == sys.logs
    ensures |Advance(sys, t).streams| == |sys.streams| + (if sys.threads[t].NewMake? then 1 else 0)
    ensures forall r :: 0 <= r < |sys.streams| && r != StreamOf(sys.threads[t]) ==> Advance(sys, t).streams[r] == sys.streams[r]
  {
    hide Advance, OnRegistry, StreamOf;
    AdvanceThreads(sys, t);
    AdvanceMaps(sys, t);
    AdvanceCount(sys, t);
    forall r | 0 <= r < |sys.streams| && r != StreamOf(sys.threads[t]) ensures Advance(sys, t).streams[r] == sys.streams[r] {
      AdvanceElsewhere(sys, t, r);
    }
  }

  function StreamOf(pc: Pc): (r: int) {
    match pc
    case NewCount => -1
    case NewMake(_) => -1
    case GetLock(_) => -1
    case GetEntry(_) => -1
    case GetUnlock(_, _) => -1
    case _ => pc.s
  }

  lemma AdvanceStream(sys: System, t: nat, r: Ref)
    requires Inv(sys) && CanGo(sys, t) && r < |Advance(sys, t).streams|
    ensures StreamOk(Advance(sys, t), r)
  {
    hide ThreadOk, StreamOk, Advance, RegistryOk;
    var mine, next := sys.threads[t], Advance(sys, t);
    assert ThreadOk(sys, t, mine);
    AdvanceFrame(sys, t);
    if OnRegistry(mine) {
      RegistryStepStream(sys, t, r);
    } else if (OnWrite(mine) || OnClose(mine)) && mine.s == r {
      if OnWrite(mine) {
        WriteStepStream(sys, t);
      } else {
        CloseStepStream(sys, t);
      }
    } else if r < |sys.streams| {
      OtherStreams(sys, next, t, r);
    } else {
      NewStream(sys, t);
    }
  }

  lemma NewStream(sys: System, t: nat)
    requires CanGo(sys, t) && ThreadOk(sys, t, sys.threads[t]) && sys.threads[t].NewMake? && RegistryOk(sys)
    ensures StreamOk(Advance(sys, t), |sys.streams|)
  {
  }

  // ---- what is kept of the registry

  lemma RegistryThroughStream(sys: System, next: System, t: nat)
    requires CanGo(sys, t) && RegistryOk(sys) && !HoldsRegistry(sys.threads[t])
    requires |next.streams| == |sys.streams| && next.logs == sys.logs && next.lock == sys.lock
    requires next.counter == sys.counter && next.issued == sys.issued
    requires forall u :: u in sys.threads && u != t ==> u in next.threads && next.threads[u] == sys.threads[u]
    requires forall s :: 0 <= s < |sys.streams| ==>
               next.streams[s].id == sys.streams[s].id && (sys.streams[s].registered ==> next.streams[s].registered)
    ensures RegistryOk(next)
  {
  }

  lemma EntryStepRegistry(sys: System, t: nat)
    requires CanGo(sys, t) && ThreadOk(sys, t, sys.threads[t]) && RegistryOk(sys)
    requires sys.threads[t].DeleteEntry? || sys.threads[t].InsertEntry?
    ensures RegistryOk(Advance(sys, t)) && Advance(sys, t).panicked == sys.panicked
  {
  }

  lemma LockStepRegistry(sys: System, t: nat)
    requires CanGo(sys, t) && ThreadOk(sys, t, sys.threads[t]) && OnRegistry(sys.threads[t]) && RegistryOk(sys)
    requires !sys.threads[t].DeleteEntry? && !sys.threads[t].InsertEntry?
    ensures RegistryOk(Advance(sys, t)) && Advance(sys, t).panicked == sys.panicked
  {
  }

  lemma RegistryStepRegistry(sys: System, t: nat)
    requires CanGo(sys, t) && ThreadOk(sys, t, sys.threads[t]) && OnRegistry(sys.threads[t]) && RegistryOk(sys)
    ensures RegistryOk(Advance(sys, t)) && Advance(sys, t).panicked == sys.panicked
  {
    hide Advance, ThreadOk, RegistryOk;
    if sys.threads[t].DeleteEntry? || sys.threads[t].InsertEntry? {
      EntryStepRegistry(sys, t);
    } else {
      LockStepRegistry(sys, t);
    }
  }

  lemma NewStepRegistry(sys: System, t: nat)
    requires Inv(sys) && CanGo(sys, t) && (sys.threads[t].NewCount? || sys.threads[t].NewMake?)
    ensures RegistryOk(Advance(sys, t)) && Advance(sys, t).panicked == sys.panicked
  {
    hide StreamOk;
    assert ThreadOk(sys, t, sys.threads[t]);
  }

  /** The step left the registry alone and did not panic. */
  ghost predicate OnlyStreams(sys: System, next: System) {
    && next.lock == sys.lock && next.counter == sys.counter && next.issued == sys.issued
    && next.panicked == sys.panicked
    && |next.streams| == |sys.streams|
    && forall s :: 0 <= s < |sys.streams| ==>
         next.streams[s].id == sys.streams[s].id && next.streams[s].registered == sys.streams[s].registered
  }

  lemma WriteStepFrame(sys: System, t: nat)
    requires CanGo(sys, t) && ThreadOk(sys, t, sys.threads[t]) && OnWrite(sys.threads[t])
    ensures OnlyStreams(sys, Advance(sys, t))
  {
  }

  lemma CloseStepFrame(sys: System, t: nat)
    requires CanGo(sys, t) && ThreadOk(sys, t, sys.threads[t]) && OnClose(sys.threads[t])
    ensures OnlyStreams(sys, Advance(sys, t))
  {
  }

  lemma AdvanceRegistry(sys: System, t: nat)
    requires Inv(sys) && CanGo(sys, t)
    ensures RegistryOk(Advance(sys, t)) && !Advance(sys, t).panicked
  {
    hide Advance, ThreadOk, StreamOk, RegistryOk;
    assert ThreadOk(sys, t, sys.threads[t]);
    if OnRegistry(sys.threads[t]) {
      RegistryStepRegistry(sys, t);
    } else if OnWrite(sys.threads[t]) || OnClose(sys.threads[t]) {
      if OnWrite(sys.threads[t]) {
        WriteStepFrame(sys, t);
      } else {
        CloseStepFrame(sys, t);
      }
      AdvanceFrame(sys, t);
      RegistryThroughStream(sys, Advance(sys, t), t);
    } else {
      NewStepRegistry(sys, t);
    }
  }

  lemma BeginKeeps(sys: System, t: nat, pc: Pc)
    requires Inv(sys) && CanBegin(sys, t, pc)
    ensures Inv(At(sys, t, pc))
  {
    var next := At(sys, t, pc);
    forall u | u in next.threads ensures ThreadOk(next, u, next.threads[u]) {
      assert u != t ==> ThreadOk(sys, u, sys.threads[u]);
    }
    forall s: Ref | s < |next.streams| ensures StreamOk(next, s) {
      assert StreamOk(sys, s);
    }
  }

  lemma ReceiveKeeps(sys: System, s: Ref)
    requires Inv(sys) && CanReceive(sys, s)
    ensures Inv(Taken(sys, s))
  {
    var next := Taken(sys, s);
    forall u | u in next.threads ensures ThreadOk(next, u, next.threads[u]) {
      assert ThreadOk(sys, u, sys.threads[u]);
    }
    forall r: Ref | r < |next.streams| ensures StreamOk(next, r) {
      assert StreamOk(sys, r);
    }
  }

  lemma NextKeeps(sys: System, step: Step)
    requires Inv(sys) && Enabled(sys, step)
    ensures Inv(Next(sys, step))
  {
    hide Advance, At, Taken, ThreadOk, StreamOk, RegistryOk, CanGo, CanBegin, CanReceive;
    match step
    case Begin(t, pc) => BeginKeeps(sys, t, pc);
    case Receive(s) => ReceiveKeeps(sys, s);
    case Go(t) =>
      AdvanceRegistry(sys, t);
      forall u | u in Advance(sys, t).threads ensures ThreadOk(Advance(sys, t), u, Advance(sys, t).threads[u]) {
        if u == t {
          AdvanceOwn(sys, t);
        } else {
          AdvanceNoNew(sys, t, u);
          AdvanceOthers(sys, t, u);
        }
      }
      forall s: Ref | s < |Advance(sys, t).streams| ensures StreamOk(Advance(sys, t), s) {
        AdvanceStream(sys, t, s);
      }
  }

  lemma AdvanceNoNew(sys: System, t: nat, u: nat)
    requires CanGo(sys, t) && u in Advance(sys, t).threads && u != t
    ensures u in sys.threads
  {
  }

  lemma {:induction false} RunKeeps(steps: seq<Step>)
    ensures Inv(Run(steps))
  {
    if steps != [] {
      RunKeeps(steps[..|steps| - 1]);
      if Enabled(Run(steps[..|steps| - 1]), steps[|steps| - 1]) {
        NextKeeps(Run(steps[..|steps| - 1]), steps[|steps| - 1]);
      }
    }
  }

  // ---------------------------------------------------------------- main results

  /** In every interleaving of writers, closers, creators, lookups and readers: nothing is sent on a
      closed channel and no channel is closed twice; no buffer exceeds its capacity; what a reader
      has received is a prefix of what was sent, the rest being in the buffer; no two streams ever
      share an identifier; and the registry maps an identifier only to its own stream. */
  lemma StreamsAreSafe(steps: seq<Step>)
    ensures var sys := Run(steps);
            && !sys.panicked
            && (forall s :: 0 <= s < |sys.streams| ==>
                  && |sys.streams[s].buffer| <= CAPACITY
                  && sys.streams[s].received <= sys.streams[s].sent
                  && sys.streams[s].sent == sys.streams[s].received + sys.streams[s].buffer)
            && (forall r, s :: 0 <= r < s < |sys.streams| ==> sys.streams[r].id != sys.streams[s].id)
            && (forall id :: id in sys.logs ==> sys.logs[id] < |sys.streams| && sys.streams[sys.logs[id]].id == id)
  {
    hide Run, ThreadOk;
    RunKeeps(steps);
    var sys := Run(steps);
    forall s: Ref | s < |sys.streams|
      ensures sys.streams[s].sent == sys.streams[s].received + sys.streams[s].buffer && |sys.streams[s].buffer| <= CAPACITY
    {
      assert StreamOk(sys, s);
    }
  }

  lemma AdvanceRemembers(sys: System, t: nat, s: Ref)
    requires CanGo(sys, t) && s < |sys.streams|
    ensures s < |Advance(sys, t).streams| && Advance(sys, t).streams[s].id == sys.streams[s].id
    ensures sys.streams[s].gone ==> Advance(sys, t).streams[s].gone
  {
    AdvanceFrame(sys, t);
  }

  /** Streams are never forgotten, keep their identifiers, and once gone stay gone. */
  lemma NextRemembers(sys: System, step: Step, s: Ref)
    requires Enabled(sys, step) && s < |sys.streams|
    ensures s < |Next(sys, step).streams| && Next(sys, step).streams[s].id == sys.streams[s].id
    ensures sys.streams[s].gone ==> Next(sys, step).streams[s].gone
  {
    hide Advance, CanGo, CanBegin;
    match step
    case Begin(_, _) =>
    case Receive(_) =>
    case Go(t) => AdvanceRemembers(sys, t, s);
  }

  lemma {:induction false} RunRemembers(steps: seq<Step>, i: nat, s: Ref)
    requires i <= |steps| && s < |Run(steps[..i]).streams|
    ensures s < |Run(steps).streams| && Run(steps).streams[s].id == Run(steps[..i]).streams[s].id
    ensures Run(steps[..i]).streams[s].gone ==> Run(steps).streams[s].gone
    decreases |steps|
  {
    hide Enabled, Next;
    if i == |steps| {
      assert steps[..i] == steps;
    } else {
      var before, last := steps[..|steps| - 1], steps[|steps| - 1];
      assert before[..i] == steps[..i];
      RunRemembers(before, i, s);
      if Enabled(Run(before), last) {
        NextRemembers(Run(before), last, s);
      }
    }
  }

  /** Once a call of Close has taken the last of its steps, then in every later state the stream's
      identifier is not in the registry, and a lookup of it there finds nothing. */
  lemma ClosedStreamIsNotFound(steps: seq<Step>, i: nat, t: nat, s: Ref, u: nat)
    requires i <= |steps| && t in Run(steps[..i]).threads && Run(steps[..i]).threads[t] == DeleteUnlock(s)
    ensures s < |Run(steps).streams|
    ensures var sys, id := Run(steps), Run(steps).streams[s].id;
            && id !in sys.logs
            && (u in sys.threads && sys.threads[u] == GetEntry(id) ==>
                  CanGo(sys, u) && u in Advance(sys, u).threads && Advance(sys, u).threads[u] == GetUnlock(id, None))
  {
    hide Run, Advance, CanGo, RegistryOk;
    RunKeeps(steps[..i]);
    assert ThreadOk(Run(steps[..i]), t, DeleteUnlock(s));
    RunRemembers(steps, i, s);
    RunKeeps(steps);
    var sys := Run(steps);
    assert StreamOk(sys, s);
    if u in sys.threads && sys.threads[u] == GetEntry(sys.streams[s].id) {
      LookupMisses(sys, u, sys.streams[s].id);
    }
  }

  /** Before a call of Close gives the mutex back, the stream and its channel are closed. */
  lemma CloseCloses(steps: seq<Step>, t: nat, s: Ref)
    requires t in Run(steps).threads && Run(steps).threads[t] == CloseUnlock(s)
    ensures s < |Run(steps).streams| && Run(steps).streams[s].closed && Run(steps).streams[s].channelClosed
  {
    hide Run, RegistryOk;
    RunKeeps(steps);
    assert ThreadOk(Run(steps), t, CloseUnlock(s));
    assert StreamOk(Run(steps), s);
  }

  lemma LookupMisses(sys: System, u: nat, id: int)
    requires u in sys.threads && sys.threads[u] == GetEntry(id) && id !in sys.logs
    ensures CanGo(sys, u) && u in Advance(sys, u).threads && Advance(sys, u).threads[u] == GetUnlock(id, None)
  {
  }

  /** A lookup returns only the stream with the identifier it was asked for. */
  lemma LookupReturnsOwnStream(steps: seq<Step>, t: nat, id: int, s: Ref)
    requires t in Run(steps).threads && Run(steps).threads[t] == GetUnlock(id, Some(s))
    ensures s < |Run(steps).streams| && Run(steps).streams[s].id == id
  {
    hide Run;
    RunKeeps(steps);
    assert ThreadOk(Run(steps), t, GetUnlock(id, Some(s)));
  }

  /** A lookup finds a stream if and only if it is entered and no call of Close has taken it out. */
  lemma LookupFindsOpen(steps: seq<Step>, s: Ref, u: nat)
    requires s < |Run(steps).streams| && u in Run(steps).threads && Run(steps).threads[u] == GetEntry(Run(steps).streams[s].id)
    ensures var sys := Run(steps);
            && CanGo(sys, u) && u in Advance(sys, u).threads
            && (Advance(sys, u).threads[u] == GetUnlock(sys.streams[s].id, Some(s)) <==> sys.streams[s].registered && !sys.streams[s].gone)
  {
    hide Run, ThreadOk, RegistryOk;
    RunKeeps(steps);
    assert StreamOk(Run(steps), s);
  }

  // ---------------------------------------------------------------- every write is sent

  /** The events of the writes that got the mutex of a stream while its channel was open, in the order
      in which they got it. */
  function Accepted(steps: seq<Step>, s: Ref): (r: seq<LogEvent>) {
    if steps == [] then []
    else
      var before, last := Run(steps[..|steps| - 1]), steps[|steps| - 1];
      Accepted(steps[..|steps| - 1], s) + Admitted(before, last, s)
  }

  /** The event admitted by one step. */
  function Admitted(sys: System, step: Step, s: Ref): (r: seq<LogEvent>) {
    if step.Go? && CanGo(sys, step.t) && sys.threads[step.t].WriteLock? && sys.threads[step.t].s == s
       && !sys.streams[s].channelClosed
    then [sys.threads[step.t].e] else []
  }

  /** The event that the holder of the mutex has still to send. */
  function Pending(sys: System, s: Ref): (r: seq<LogEvent>) {
    if s < |sys.streams| && sys.streams[s].holder.Some? && sys.streams[s].holder.value in sys.threads
    then
      match sys.threads[sys.streams[s].holder.value]
      case WriteTest(_, e) => if sys.streams[s].channelClosed then [] else [e]
      case WriteSend(_, e) => [e]
      case _ => []
    else []
  }

  function SentOn(sys: System, s: Ref): (r: seq<LogEvent>) {
    if s < |sys.streams| then sys.streams[s].sent else []
  }

  lemma WriteStepSends(sys: System, t: nat)
    requires CanGo(sys, t) && ThreadOk(sys, t, sys.threads[t]) && OnWrite(sys.threads[t]) && StreamOk(sys, sys.threads[t].s)
    ensures var s := sys.threads[t].s;
            SentOn(Advance(sys, t), s) + Pending(Advance(sys, t), s) == SentOn(sys, s) + Pending(sys, s) + Admitted(sys, Go(t), s)
  {
  }

  lemma CloseStepSends(sys: System, t: nat)
    requires CanGo(sys, t) && ThreadOk(sys, t, sys.threads[t]) && OnClose(sys.threads[t]) && StreamOk(sys, sys.threads[t].s)
    ensures var s := sys.threads[t].s;
            SentOn(Advance(sys, t), s) == SentOn(sys, s) && Pending(Advance(sys, t), s) == Pending(sys, s) == []
  {
  }

  /** A step that leaves the stream's holder, flags and channel alone, and its holder where it is. */
  lemma OtherStepSends(sys: System, next: System, s: Ref)
    requires s < |sys.streams| && s < |next.streams|
    requires next.streams[s].holder == sys.streams[s].holder && next.streams[s].channelClosed == sys.streams[s].channelClosed
    requires next.streams[s].sent == sys.streams[s].sent
    requires sys.streams[s].holder.Some? ==>
               && sys.streams[s].holder.value in sys.threads && sys.streams[s].holder.value in next.threads
               && next.threads[sys.streams[s].holder.value] == sys.threads[sys.streams[s].holder.value]
    ensures SentOn(next, s) == SentOn(sys, s) && Pending(next, s) == Pending(sys, s)
  {
  }

  /** What a step of a thread elsewhere leaves of a stream. */
  lemma AwayFrame(sys: System, t: nat, s: Ref)
    requires CanGo(sys, t) && s < |sys.streams|
    requires !((OnWrite(sys.threads[t]) || OnClose(sys.threads[t])) && sys.threads[t].s == s)
    ensures var next := Advance(sys, t);
            && s < |next.streams|
            && next.streams[s].holder == sys.streams[s].holder && next.streams[s].channelClosed == sys.streams[s].channelClosed
            && next.streams[s].sent == sys.streams[s].sent
  {
    hide Advance, StreamOf;
    AdvanceFrame(sys, t);
    if OnRegistry(sys.threads[t]) {
      RegistryAway(sys, t, s);
    } else {
      StreamAway(sys.threads[t], s);
    }
  }

  lemma StreamAway(pc: Pc, s: Ref)
    requires !OnRegistry(pc) && !((OnWrite(pc) || OnClose(pc)) && pc.s == s)
    ensures StreamOf(pc) != s
  {
  }

  lemma RegistryAway(sys: System, t: nat, s: Ref)
    requires CanGo(sys, t) && OnRegistry(sys.threads[t]) && s < |sys.streams|
    ensures var next := Advance(sys, t);
            && s < |next.streams|
            && next.streams[s].holder == sys.streams[s].holder && next.streams[s].channelClosed == sys.streams[s].channelClosed
            && next.streams[s].sent == sys.streams[s].sent
  {
  }

  lemma GoSends(sys: System, t: nat, s: Ref)
    requires Inv(sys) && CanGo(sys, t)
    ensures SentOn(Advance(sys, t), s) + Pending(Advance(sys, t), s) == SentOn(sys, s) + Pending(sys, s) + Admitted(sys, Go(t), s)
  {
    hide Advance, ThreadOk, StreamOk, RegistryOk, SentOn, Pending, Admitted;
    var pc := sys.threads[t];
    assert ThreadOk(sys, t, pc);
    if OnWrite(pc) && pc.s == s {
      OnStream(sys, t);
      assert StreamOk(sys, s);
      WriteStepSends(sys, t);
    } else if OnClose(pc) && pc.s == s {
      OnStream(sys, t);
      assert StreamOk(sys, s);
      CloseStepSends(sys, t);
      NotAdmitted(sys, t, s);
      assert SentOn(sys, s) + [] + [] == SentOn(sys, s) + [];
    } else {
      NotAdmitted(sys, t, s);
      AwaySends(sys, t, s);
      assert SentOn(sys, s) + Pending(sys, s) + [] == SentOn(sys, s) + Pending(sys, s);
    }
  }

  lemma OnStream(sys: System, t: nat)
    requires CanGo(sys, t) && (OnWrite(sys.threads[t]) || OnClose(sys.threads[t]))
    ensures sys.threads[t].s < |sys.streams|
  {
  }

  lemma NotAdmitted(sys: System, t: nat, s: Ref)
    requires CanGo(sys, t) && !(OnWrite(sys.threads[t]) && sys.threads[t].s == s)
    ensures Admitted(sys, Go(t), s) == []
  {
  }

  lemma AwaySends(sys: System, t: nat, s: Ref)
    requires Inv(sys) && CanGo(sys, t)
    requires !((OnWrite(sys.threads[t]) || OnClose(sys.threads[t])) && sys.threads[t].s == s)
    ensures SentOn(Advance(sys, t), s) == SentOn(sys, s) && Pending(Advance(sys, t), s) == Pending(sys, s)
  {
    hide Advance, ThreadOk, RegistryOk, SentOn, Pending;
    if s < |sys.streams| {
      assert StreamOk(sys, s);
      AwayFrame(sys, t, s);
      AdvanceThreads(sys, t);
      OtherStepSends(sys, Advance(sys, t), s);
    } else {
      NewSends(sys, t, s);
      NothingYet(sys, s);
    }
  }

  lemma NewSends(sys: System, t: nat, s: Ref)
    requires CanGo(sys, t) && |sys.streams| <= s
    ensures SentOn(Advance(sys, t), s) == [] && Pending(Advance(sys, t), s) == []
  {
  }

  lemma NextSends(sys: System, step: Step, s: Ref)
    requires Inv(sys) && Enabled(sys, step)
    ensures SentOn(Next(sys, step), s) + Pending(Next(sys, step), s) == SentOn(sys, s) + Pending(sys, s) + Admitted(sys, step, s)
  {
    hide Advance, ThreadOk, RegistryOk, SentOn, Pending, CanGo;
    match step
    case Go(t) => GoSends(sys, t, s);
    case Begin(_, _) =>
      if s < |sys.streams| {
        assert StreamOk(sys, s);
        OtherStepSends(sys, Next(sys, step), s);
      } else {
        NothingYet(sys, s);
        NothingYet(Next(sys, step), s);
      }
    case Receive(_) =>
      if s < |sys.streams| {
        assert StreamOk(sys, s);
        OtherStepSends(sys, Next(sys, step), s);
      } else {
        NothingYet(sys, s);
        NothingYet(Next(sys, step), s);
      }
  }

  lemma NothingYet(sys: System, s: Ref)
    requires |sys.streams| <= s
    ensures SentOn(sys, s) == [] && Pending(sys, s) == []
  {
  }

  /** In every run, what has been sent on a stream, and what the holder of its mutex has still to send,
      is exactly the events of the writes that got the mutex while the channel was open, in that order. */
  lemma {:induction false} WritesAreSent(steps: seq<Step>, s: Ref)
    ensures Accepted(steps, s) == SentOn(Run(steps), s) + Pending(Run(steps), s)
  {
    hide Inv, SentOn, Pending, Admitted, Enabled, Next;
    if steps == [] {
      NothingYet(Start, s);
    } else {
      var before, last := steps[..|steps| - 1], steps[|steps| - 1];
      WritesAreSent(before, s);
      RunKeeps(before);
      if Enabled(Run(before), last) {
        NextSends(Run(before), last, s);
      } else {
        DisabledAdmitsNothing(Run(before), last, s);
      }
    }
  }

  lemma DisabledAdmitsNothing(sys: System, step: Step, s: Ref)
    requires !Enabled(sys, step)
    ensures Admitted(sys, step, s) == []
  {
  }

  /** When no call holds the mutex of a stream, all its admitted events have been sent, and received
      but for those in the buffer. */
  lemma NothingIsLost(steps: seq<Step>, s: Ref)
    requires s < |Run(steps).streams| && Run(steps).streams[s].holder.None?
    ensures var x := Run(steps).streams[s]; Accepted(steps, s) == x.sent == x.received + x.buffer
  {
    hide Run, Accepted, ThreadOk, RegistryOk;
    WritesAreSent(steps, s);
    RunKeeps(steps);
    assert StreamOk(Run(steps), s);
  }

  /** One call keeps the mutex of the stream from one moment of a run to another. */
  ghost predicate Throughout(steps: seq<Step>, i: nat, k: nat, t: nat, s: Ref)
    requires i <= k <= |steps|
  {
    forall m :: i <= m <= k ==> t in Run(steps[..m]).threads && HoldsStream(Run(steps[..m]).threads[t], s)
  }

  lemma {:induction false} NoneAdmittedMeanwhile(steps: seq<Step>, i: nat, k: nat, t: nat, s: Ref)
    requires i <= k <= |steps| && Throughout(steps, i, k, t, s)
    ensures Accepted(steps[..k], s) == Accepted(steps[..i], s)
    decreases k
  {
    hide Inv, Run, ThreadOk;
    if i < k {
      NoneAdmittedMeanwhile(steps, i, k - 1, t, s);
      assert steps[..k][..k - 1] == steps[..k - 1];
      var sys := Run(steps[..k - 1]);
      RunKeeps(steps[..k - 1]);
      assert HoldsStream(sys.threads[t], s);
      HolderIsHolder(sys, t, s);
    }
  }

  lemma HolderIsHolder(sys: System, t: nat, s: Ref)
    requires Inv(sys) && t in sys.threads && HoldsStream(sys.threads[t], s)
    ensures s < |sys.streams| && sys.streams[s].holder == Some(t)
    ensures forall step :: Admitted(sys, step, s) == []
  {
    hide StreamOk, RegistryOk;
    assert ThreadOk(sys, t, sys.threads[t]);
  }

  /** A write that stands before its test, and the same call before its unlock: meanwhile its event was
      sent, alone, when the channel was open, and nothing was sent when it was closed. */
  lemma WriteIsSent(steps: seq<Step>, i: nat, k: nat, t: nat, s: Ref, e: LogEvent)
    requires i <= k <= |steps| && Throughout(steps, i, k, t, s)
    requires Run(steps[..i]).threads[t] == WriteTest(s, e) && Run(steps[..k]).threads[t] == WriteUnlock(s)
    ensures s < |Run(steps[..i]).streams| && s < |Run(steps[..k]).streams|
    ensures Run(steps[..k]).streams[s].sent ==
            Run(steps[..i]).streams[s].sent + (if Run(steps[..i]).streams[s].channelClosed then [] else [e])
  {
    hide Inv, Run, Accepted;
    assert t in Run(steps[..i]).threads && HoldsStream(Run(steps[..i]).threads[t], s);
    assert t in Run(steps[..k]).threads && HoldsStream(Run(steps[..k]).threads[t], s);
    RunKeeps(steps[..i]);
    RunKeeps(steps[..k]);
    HolderIsHolder(Run(steps[..i]), t, s);
    HolderIsHolder(Run(steps[..k]), t, s);
    WritesAreSent(steps[..i], s);
    WritesAreSent(steps[..k], s);
    NoneAdmittedMeanwhile(steps, i, k, t, s);
    assert Pending(Run(steps[..k]), s) == [];
  }

  /** The holder of a mutex can step, unless it sends into a full buffer, which its reader can empty. */
  lemma HolderProgresses(sys: System, t: nat)
    requires Inv(sys) && t in sys.threads && ((exists s :: HoldsStream(sys.threads[t], s)) || HoldsRegistry(sys.threads[t]))
    ensures CanGo(sys, t) || exists s :: CanReceive(sys, s)
  {
    assert ThreadOk(sys, t, sys.threads[t]);
    if sys.threads[t].WriteSend? && !CanGo(sys, t) {
      assert CanReceive(sys, sys.threads[t].s);
    }
  }

  /** No deadlock: while any call is pending, some thread or some reader can step. */
  lemma SomeoneCanStep(steps: seq<Step>)
    requires Run(steps).threads != map[]
    ensures exists step :: Enabled(Run(steps), step) && !step.Begin?
  {
    hide Run;
    RunKeeps(steps);
    var sys := Run(steps);
    var t :| t in sys.threads;
    assert ThreadOk(sys, t, sys.threads[t]);
    var who := Runner(sys, t);
    if CanGo(sys, who) {
      assert Enabled(sys, Go(who));
    } else {
      var s :| CanReceive(sys, s);
      assert Enabled(sys, Receive(s));
    }
  }

  /** The thread itself, or the one that holds the mutex it waits for. */
  lemma Runner(sys: System, t: nat) returns (who: nat)
    requires Inv(sys) && t in sys.threads
    ensures CanGo(sys, who) || exists s :: CanReceive(sys, s)
  {
    assert ThreadOk(sys, t, sys.threads[t]);
    var pc := sys.threads[t];
    who := t;
    if (pc.WriteLock? || pc.CloseLock?) && !CanGo(sys, t) {
      assert StreamOk(sys, pc.s);
      who := sys.streams[pc.s].holder.value;
      assert HoldsStream(sys.threads[who], pc.s);
      HolderProgresses(sys, who);
    } else if (pc.DeleteLock? || pc.InsertLock? || pc.GetLock?) && !CanGo(sys, t) {
      who := sys.lock.value;
      HolderProgresses(sys, who);
    } else if pc.WriteSend? {
      assert HoldsStream(pc, pc.s);
      HolderProgresses(sys, t);
    }
  }

  // ---------------------------------------------------------------- one event, all the way

  lemma RunTakes(steps: seq<Step>, step: Step, next: System)
    requires Enabled(Run(steps), step) && Next(Run(steps), step) == next
    ensures Run(steps + [step]) == next
  {
    hide Enabled, Next;
    assert (steps + [step])[..|steps|] == steps;
  }

  const FIRST := Stream(2, false, None, false, [], [], [], false, false)

  /** One thread makes a stream. */
  lemma StreamIsMade() returns (steps: seq<Step>)
    ensures Run(steps) == System([FIRST], map[], None, 2, map[2 := 0], map[0 := InsertLock(0)], false)
  {
    steps := [];
    RunTakes(steps, Begin(0, NewCount), At(Start, 0, NewCount));
    steps := steps + [Begin(0, NewCount)];
    RunTakes(steps, Go(0), System([], map[], None, 2, map[2 := 0], map[0 := NewMake(2)], false));
    steps := steps + [Go(0)];
    RunTakes(steps, Go(0), System([FIRST], map[], None, 2, map[2 := 0], map[0 := InsertLock(0)], false));
    steps := steps + [Go(0)];
  }

  lemma StreamIsEntering() returns (steps: seq<Step>)
    ensures Run(steps) == System([FIRST], map[], Some(0), 2, map[2 := 0], map[0 := InsertEntry(0)], false)
  {
    steps := StreamIsMade();
    RunTakes(steps, Go(0), System([FIRST], map[], Some(0), 2, map[2 := 0], map[0 := InsertEntry(0)], false));
    steps := steps + [Go(0)];
  }

  /** And enters it. */
  lemma StreamIsEntered() returns (steps: seq<Step>)
    ensures Run(steps) == System([FIRST.(registered := true)], map[2 := 0], None, 2, map[2 := 0], map[], false)
  {
    steps := StreamIsEntering();
    var s, issued := FIRST.(registered := true), map[2 := 0];
    RunTakes(steps, Go(0), System([s], map[2 := 0], Some(0), 2, issued, map[0 := InsertUnlock(0)], false));
    steps := steps + [Go(0)];
    RunTakes(steps, Go(0), System([s], map[2 := 0], None, 2, issued, map[], false));
    steps := steps + [Go(0)];
  }

  lemma EventIsSent(e: LogEvent) returns (steps: seq<Step>)
    ensures Run(steps) == System([FIRST.(registered := true, holder := Some(1), buffer := [e], sent := [e])], map[2 := 0], None, 2,
                                 map[2 := 0], map[1 := WriteUnlock(0)], false)
  {
    steps := StreamIsEntered();
    var s := FIRST.(registered := true);
    var logs, issued, held := map[2 := 0], map[2 := 0], s.(holder := Some(1));
    RunTakes(steps, Begin(1, WriteLock(0, e)), System([s], logs, None, 2, issued, map[1 := WriteLock(0, e)], false));
    steps := steps + [Begin(1, WriteLock(0, e))];
    RunTakes(steps, Go(1), System([held], logs, None, 2, issued, map[1 := WriteTest(0, e)], false));
    steps := steps + [Go(1)];
    RunTakes(steps, Go(1), System([held], logs, None, 2, issued, map[1 := WriteSend(0, e)], false));
    steps := steps + [Go(1)];
    var sent := held.(buffer := [e], sent := [e]);
    assert held.buffer + [e] == [e] == held.sent + [e];
    RunTakes(steps, Go(1), System([sent], logs, None, 2, issued, map[1 := WriteUnlock(0)], false));
    steps := steps + [Go(1)];
  }

  /** A stream is made, one call writes an event, and the reader receives it. */
  lemma EventArrives(e: LogEvent) returns (steps: seq<Step>)
    ensures |Run(steps).streams| == 1 && Run(steps).streams[0].received == [e]
  {
    steps := EventIsSent(e);
    var sent := FIRST.(registered := true, holder := Some(1), buffer := [e], sent := [e]);
    assert sent.buffer[1..] == [] && sent.received + [e] == [e];
    RunTakes(steps, Receive(0), System([sent.(buffer := [], received := [e])], map[2 := 0], None, 2, map[2 := 0], map[1 := WriteUnlock(0)], false));
    steps := steps + [Receive(0)];
  }
}
