/**
 The connect gate of the Socket.IO namespaces as a transition system: any number of goroutines that look
 up namespaces or emit on them, and the message loop that dispatches CONNECT, interleaved at the client's
 critical sections and channel operations.
 */
module NamespaceGate {
  import opened Bytes
  import opened NamespaceTable

  /** A namespace object. */
  datatype Object = Object(name: Bytes, gate: Gate)

  datatype EmitPc = Waiting | Passed | Aborted | Handed

  /** A call of Emit, on the object that the caller got for `name`. */
  datatype Emitter = Emitter(name: Bytes, target: nat, pc: EmitPc)

  /** The message loop, inside the dispatch of a CONNECT. */
  datatype LoopPc =
    | Idle
    | Missing(name: Bytes)   // the lookup found nothing; before namespace()
    | Found(target: nat)     // before hadConnected.Do

  /** What an outsider sees: a CONNECT dispatched for a name, an EVENT of a name given to the engine. */
  datatype Log = ConnectDispatched(name: Bytes) | EventSent(name: Bytes)

  /** `names` is the namespaces map; its values number the entries of `objects`. */
  datatype State = State(
    names: map<Bytes, nat>,
    objects: seq<Object>,
    emitters: map<nat, Emitter>,
    loop: LoopPc,
    ctxDone: bool,
    log: seq<Log>)

  /** namespace(): a name that is new gets the next object. */
  function Objects(names: map<Bytes, nat>, objects: seq<Object>, name: Bytes): seq<Object> {
    if name in names then objects else objects + [Object(name, SHUT)]
  }

  /** A new client has its default namespace only. */
  function Initial(defaultName: Bytes): State {
    State(map[defaultName := 0], [Object(defaultName, SHUT)], map[], Idle, false, [])
  }

  datatype Action =
    | Lookup(name: Bytes)                 // namespace(), from any goroutine
    | StartEmit(id: nat, name: Bytes)     // Emit on a namespace that exists
    | PassGate(id: nat) | SeeContext(id: nat) | HandEvent(id: nat) | FailEmit(id: nat)
    | BeginConnect(name: Bytes) | CreateMissing | FinishConnect
    | CancelContext

  predicate EmitterAt(s: State, id: nat, pc: EmitPc) {
    id in s.emitters && s.emitters[id].pc == pc && s.emitters[id].target < |s.objects|
  }

  predicate Enabled(s: State, a: Action) {
    match a
    case Lookup(_) => true
    case StartEmit(id, name) => id !in s.emitters && name in s.names
    case PassGate(id) => EmitterAt(s, id, Waiting) && s.objects[s.emitters[id].target].gate.closed
    case SeeContext(id) => EmitterAt(s, id, Waiting) && s.ctxDone
    case HandEvent(id) => EmitterAt(s, id, Passed)
    case FailEmit(id) => EmitterAt(s, id, Passed)
    case BeginConnect(_) => s.loop.Idle?
    case CreateMissing => s.loop.Missing?
    case FinishConnect => s.loop.Found? && s.loop.target < |s.objects|
    case CancelContext => true
  }

  function Next(s: State, a: Action): State
    requires Enabled(s, a)
  {
    match a
    case Lookup(name) =>
      s.(names := GetOrCreate(s.names, name, |s.objects|).0, objects := Objects(s.names, s.objects, name))
    case StartEmit(id, name) => s.(emitters := s.emitters[id := Emitter(name, s.names[name], Waiting)])
    case PassGate(id) => s.(emitters := s.emitters[id := s.emitters[id].(pc := Passed)])
    case SeeContext(id) => s.(emitters := s.emitters[id := s.emitters[id].(pc := Aborted)])
    case HandEvent(id) =>
      s.(emitters := s.emitters[id := s.emitters[id].(pc := Handed)],
         log := s.log + [EventSent(s.objects[s.emitters[id].target].name)])
    case FailEmit(id) => s.(emitters := s.emitters[id := s.emitters[id].(pc := Aborted)])
    case BeginConnect(name) => s.(loop := if name in s.names then Found(s.names[name]) else Missing(name))
    case CreateMissing =>
      var name := s.loop.name;
      var (names, target) := GetOrCreate(s.names, name, |s.objects|);
      s.(names := names, objects := Objects(s.names, s.objects, name), loop := Found(target))
    case FinishConnect =>
      var target := s.loop.target;
      s.(objects := s.objects[target := s.objects[target].(gate := Open(s.objects[target].gate))],
         log := s.log + [ConnectDispatched(s.objects[target].name)],
         loop := Idle)
    case CancelContext => s.(ctxDone := true)
  }

  ghost predicate Run(ss: seq<State>, acts: seq<Action>) {
    && |ss| == |acts| + 1
    && (exists name :: ss[0] == Initial(name))
    && forall i :: 0 <= i < |acts| ==> Enabled(ss[i], acts[i]) && ss[i + 1] == Next(ss[i], acts[i])
  }

  // ------------------------------------------------------------------ the invariant

  /** The map and the objects name each other. */
  ghost predicate InvNames(names: map<Bytes, nat>, objects: seq<Object>) {
    && (forall n :: n in names ==> names[n] < |objects| && objects[names[n]].name == n)
    && (forall k :: 0 <= k < |objects| ==> objects[k].name in names && names[objects[k].name] == k)
  }

  /** A gate is closed once at most, and only after a CONNECT for its name was dispatched. */
  ghost predicate InvObjects(objects: seq<Object>, log: seq<Log>) {
    forall k :: 0 <= k < |objects| ==> ObjectOk(objects[k], log)
  }

  predicate ObjectOk(o: Object, log: seq<Log>) {
    && GateOk(o.gate)
    && (o.gate.closed <==> ConnectDispatched(o.name) in log)
  }

  ghost predicate InvEmitters(emitters: map<nat, Emitter>, objects: seq<Object>, log: seq<Log>) {
    forall id :: id in emitters ==> EmitterOk(emitters[id], objects, log)
  }

  predicate EmitterOk(me: Emitter, objects: seq<Object>, log: seq<Log>) {
    && me.target < |objects| && objects[me.target].name == me.name
    && (me.pc.Passed? || me.pc.Handed? ==> objects[me.target].gate.closed)
    && (me.pc.Handed? ==> EventSent(me.name) in log)
  }

  ghost predicate Gated(log: seq<Log>) {
    forall i :: 0 <= i < |log| && log[i].EventSent? ==>
      exists j :: 0 <= j < i && log[j] == ConnectDispatched(log[i].name)
  }

  ghost predicate Inv(s: State) {
    && InvNames(s.names, s.objects)
    && InvObjects(s.objects, s.log)
    && InvEmitters(s.emitters, s.objects, s.log)
    && (s.loop.Found? ==> s.loop.target < |s.objects|)
    && Gated(s.log)
    && (forall i :: 0 <= i < |s.log| ==> s.log[i].name in s.names)
  }

  lemma LookupKeeps(s: State, name: Bytes)
    requires Inv(s)
    ensures Inv(Next(s, Lookup(name)))
  {
  }

  lemma CreateKeeps(s: State)
    requires Inv(s) && s.loop.Missing?
    ensures Inv(Next(s, CreateMissing))
  {
  }

  lemma GatedGrows(log: seq<Log>, x: Log)
    requires Gated(log) && (x.EventSent? ==> ConnectDispatched(x.name) in log)
    ensures Gated(log + [x])
  {
    forall i | 0 <= i < |log + [x]| && (log + [x])[i].EventSent?
      ensures exists j :: 0 <= j < i && (log + [x])[j] == ConnectDispatched((log + [x])[i].name)
    {
      var j :| 0 <= j < |log| && j < i && log[j] == ConnectDispatched((log + [x])[i].name);
      assert (log + [x])[j] == log[j];
    }
  }

  lemma ConnectKeeps(s: State)
    requires Inv(s) && Enabled(s, FinishConnect)
    ensures Inv(Next(s, FinishConnect))
  {
    var t := Next(s, FinishConnect);
    var target := s.loop.target;
    var x := ConnectDispatched(s.objects[target].name);
    GatedGrows(s.log, x);
    forall k | 0 <= k < |t.objects|
      ensures ObjectOk(t.objects[k], t.log)
    {
      assert ObjectOk(s.objects[k], s.log);
      if k == target {
        assert t.log[|s.log|] == x;
      }
    }
  }

  lemma HandKeeps(s: State, id: nat)
    requires Inv(s) && Enabled(s, HandEvent(id))
    ensures Inv(Next(s, HandEvent(id)))
  {
    var t := Next(s, HandEvent(id));
    var target := s.emitters[id].target;
    assert ObjectOk(s.objects[target], s.log);
    GatedGrows(s.log, EventSent(s.objects[target].name));
    forall k | 0 <= k < |t.objects|
      ensures ObjectOk(t.objects[k], t.log)
    {
      assert ObjectOk(s.objects[k], s.log);
    }
  }

  lemma StepKeeps(s: State, a: Action)
    requires Inv(s) && Enabled(s, a)
    ensures Inv(Next(s, a))
  {
    match a
    case Lookup(name) => LookupKeeps(s, name);
    case CreateMissing => CreateKeeps(s);
    case FinishConnect => ConnectKeeps(s);
    case HandEvent(id) => HandKeeps(s, id);
    case _ =>
  }

  lemma {:induction false} RunKeeps(ss: seq<State>, acts: seq<Action>, k: nat)
    requires Run(ss, acts) && k < |ss|
    ensures Inv(ss[k])
  {
    if k > 0 {
      hide Inv, Next, Enabled;
      RunKeeps(ss, acts, k - 1);
      assert Enabled(ss[k - 1], acts[k - 1]) && ss[k] == Next(ss[k - 1], acts[k - 1]);
      StepKeeps(ss[k - 1], acts[k - 1]);
    }
  }

  /** Emit gating: every EVENT given to the engine follows a dispatched CONNECT for the same namespace. */
  lemma EmitIsGated(ss: seq<State>, acts: seq<Action>, k: nat, i: nat)
    requires Run(ss, acts) && k < |ss| && i < |ss[k].log| && ss[k].log[i].EventSent?
    ensures exists j :: 0 <= j < i && ss[k].log[j] == ConnectDispatched(ss[k].log[i].name)
  {
    RunKeeps(ss, acts, k);
  }

  lemma StepKeepsEmitter(s: State, a: Action, id: nat)
    requires Enabled(s, a) && id in s.emitters
    ensures id in Next(s, a).emitters && Next(s, a).emitters[id].name == s.emitters[id].name
  {
  }

  /** An Emit waits for the gate of the namespace that it was called on, and its EVENT is for that namespace. */
  lemma {:induction false} EmitKeepsItsName(ss: seq<State>, acts: seq<Action>, i: nat, k: nat, id: nat, name: Bytes)
    requires Run(ss, acts) && i < k < |ss| && acts[i] == StartEmit(id, name)
    ensures id in ss[k].emitters && ss[k].emitters[id].name == name
    ensures ss[k].emitters[id].pc.Passed? || ss[k].emitters[id].pc.Handed? ==> ConnectDispatched(name) in ss[k].log
    ensures ss[k].emitters[id].pc.Handed? ==> EventSent(name) in ss[k].log
    decreases k
  {
    if i + 1 < k {
      hide Inv, Next, Enabled;
      EmitKeepsItsName(ss, acts, i, k - 1, id, name);
      assert Enabled(ss[k - 1], acts[k - 1]) && ss[k] == Next(ss[k - 1], acts[k - 1]);
      StepKeepsEmitter(ss[k - 1], acts[k - 1], id);
    } else {
      assert Enabled(ss[i], acts[i]) && ss[i + 1] == Next(ss[i], acts[i]);
    }
    RunKeeps(ss, acts, k);
    EmitterFacts(ss[k], id);
  }

  lemma EmitterFacts(s: State, id: nat)
    requires Inv(s) && id in s.emitters
    ensures
      var me := s.emitters[id];
      && (me.pc.Passed? || me.pc.Handed? ==> ConnectDispatched(me.name) in s.log)
      && (me.pc.Handed? ==> EventSent(me.name) in s.log)
  {
    assert EmitterOk(s.emitters[id], s.objects, s.log);
    assert ObjectOk(s.objects[s.emitters[id].target], s.log);
  }

  /** A gate is open exactly when a CONNECT for its name was dispatched, and was closed at most once. */
  lemma GateOpensOnce(ss: seq<State>, acts: seq<Action>, k: nat, o: nat)
    requires Run(ss, acts) && k < |ss| && o < |ss[k].objects|
    ensures ss[k].objects[o].gate.closed <==> ConnectDispatched(ss[k].objects[o].name) in ss[k].log
    ensures ss[k].objects[o].gate.closes == if ss[k].objects[o].gate.closed then 1 else 0
  {
    RunKeeps(ss, acts, k);
    assert ObjectOk(ss[k].objects[o], ss[k].log);
  }

  /** A lookup, and the dispatch of a CONNECT, leave the namespace in the map, as the object of that name. */
  lemma LookupFinds(ss: seq<State>, acts: seq<Action>, i: nat, name: Bytes)
    requires Run(ss, acts) && i < |acts|
    requires acts[i] == Lookup(name) || (acts[i].CreateMissing? && ss[i].loop == Missing(name))
    ensures name in ss[i + 1].names && ss[i + 1].names[name] < |ss[i + 1].objects|
    ensures ss[i + 1].objects[ss[i + 1].names[name]].name == name
  {
    assert Enabled(ss[i], acts[i]) && ss[i + 1] == Next(ss[i], acts[i]);
    RunKeeps(ss, acts, i + 1);
  }

  /** The message loop is at a CONNECT for this name. */
  predicate Connecting(s: State, name: Bytes) {
    match s.loop
    case Idle => false
    case Missing(n) => n == name
    case Found(target) => target < |s.objects| && s.objects[target].name == name
  }

  lemma BeginConnects(s: State, name: Bytes)
    requires Inv(s) && Enabled(s, BeginConnect(name))
    ensures Connecting(Next(s, BeginConnect(name)), name)
  {
  }

  lemma StepConnects(s: State, a: Action, name: Bytes)
    requires Inv(s) && Enabled(s, a) && !a.FinishConnect? && Connecting(s, name)
    ensures Connecting(Next(s, a), name)
  {
  }

  lemma {:induction false} StillConnecting(ss: seq<State>, acts: seq<Action>, i: nat, k: nat, name: Bytes)
    requires Run(ss, acts) && i < k < |ss| && acts[i] == BeginConnect(name)
    requires forall j :: i < j < k ==> !acts[j].FinishConnect?
    ensures Connecting(ss[k], name)
    decreases k
  {
    hide Inv, Next, Enabled, Connecting;
    assert Enabled(ss[k - 1], acts[k - 1]) && ss[k] == Next(ss[k - 1], acts[k - 1]);
    RunKeeps(ss, acts, k - 1);
    if i + 1 < k {
      StillConnecting(ss, acts, i, k - 1, name);
      StepConnects(ss[k - 1], acts[k - 1], name);
    } else {
      BeginConnects(ss[i], name);
    }
  }

  /** The dispatch of a CONNECT opens the gate of the namespace that it names. */
  lemma ConnectOpensItsName(ss: seq<State>, acts: seq<Action>, i: nat, k: nat, name: Bytes)
    requires Run(ss, acts) && i < k < |acts| && acts[i] == BeginConnect(name) && acts[k].FinishConnect?
    requires forall j :: i < j < k ==> !acts[j].FinishConnect?
    ensures name in ss[k + 1].names && ss[k + 1].names[name] < |ss[k + 1].objects|
    ensures ss[k + 1].objects[ss[k + 1].names[name]].gate.closed
    ensures ss[k + 1].log == ss[k].log + [ConnectDispatched(name)]
  {
    StillConnecting(ss, acts, i, k, name);
    assert Enabled(ss[k], acts[k]) && ss[k + 1] == Next(ss[k], acts[k]);
    RunKeeps(ss, acts, k);
    FinishOpens(ss[k], name);
  }

  lemma FinishOpens(s: State, name: Bytes)
    requires Inv(s) && Enabled(s, FinishConnect) && Connecting(s, name)
    ensures
      var t := Next(s, FinishConnect);
      && name in t.names && t.names[name] < |t.objects| && t.objects[t.names[name]].gate.closed
      && t.log == s.log + [ConnectDispatched(name)]
  {
    assert ObjectOk(s.objects[s.loop.target], s.log);
  }

  lemma StepKeepsNames(s: State, a: Action, name: Bytes)
    requires Inv(s) && Enabled(s, a) && name in s.names
    ensures name in Next(s, a).names && Next(s, a).names[name] == s.names[name]
  {
  }

  lemma NamesAreDistinct(s: State, name: Bytes, other: Bytes)
    requires Inv(s) && name in s.names && other in s.names && s.names[other] == s.names[name]
    ensures other == name
  {
  }

  /** A name keeps its one object for good, and no two names share one. */
  lemma {:induction false} NamesAreKept(ss: seq<State>, acts: seq<Action>, i: nat, k: nat, name: Bytes, other: Bytes)
    requires Run(ss, acts) && i <= k < |ss| && name in ss[i].names
    ensures name in ss[k].names && ss[k].names[name] == ss[i].names[name]
    ensures other in ss[k].names && ss[k].names[other] == ss[k].names[name] ==> other == name
    decreases k
  {
    hide Inv, Next, Enabled;
    if i < k {
      NamesAreKept(ss, acts, i, k - 1, name, other);
      RunKeeps(ss, acts, k - 1);
      assert Enabled(ss[k - 1], acts[k - 1]) && ss[k] == Next(ss[k - 1], acts[k - 1]);
      StepKeepsNames(ss[k - 1], acts[k - 1], name);
    }
    RunKeeps(ss, acts, k);
    if other in ss[k].names && ss[k].names[other] == ss[k].names[name] {
      NamesAreDistinct(ss[k], name, other);
    }
  }
}
