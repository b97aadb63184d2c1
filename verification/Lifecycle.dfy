/** The state machine that drives the bridge, and the runtime it drives. */
module Lifecycle {
  import opened Common
  import opened MadsBroker

  // ---- The runtime ------------------------------------------------------------

  datatype Device = Absent | Created | Started | Stopped

  /** `BridgeRuntime`. `manual`: the transports were handed in instead of being created. `ticks` counts
      ticks, `shutdowns` calls of `shutdown`, and `lateTicks` ticks after a shutdown. */
  datatype Runtime = Runtime(
    manual: bool,
    mads: Device,
    ws: Device,
    core: bool,
    initialized: bool,
    down: bool,
    ticks: nat,
    shutdowns: nat,
    lateTicks: nat)

  /** How a transport's `start` ends. */
  datatype Attempt = Succeeds | Refuses | Throws

  /** What the outside does in one turn of the machine: whether the agent can be created and connected,
      how the start of each transport ends, their health, the stop request, and how a tick would end. */
  datatype World = World(
    agentUp: bool,
    madsStart: Attempt,
    wsStart: Attempt,
    healthy: bool,
    stopRequested: bool,
    tickOk: bool,
    coreStops: bool)

  datatype Decision = Stay | ToIdle | ToRun | ToStop

  function Initialize(r: Runtime, e: World): (Runtime, bool) {
    if r.initialized then (r, true)
    else if !r.manual && !e.agentUp then (r, false)
    else
      var r1 := if r.manual then r else r.(mads := Created, ws := Created);
      if r1.mads.Absent? || r1.ws.Absent? then (r1, false)
      else if !e.madsStart.Succeeds? then (r1, false)
      else if e.wsStart.Throws? then (r1.(mads := Started), false)
      else if e.wsStart.Refuses? then (r1.(mads := Stopped), false)
      else (r1.(mads := Started, ws := Started, core := true, initialized := true), true)
  }

  function IdleDecision(r: Runtime, e: World): Decision {
    if !r.initialized || !e.healthy || e.stopRequested then ToStop else ToRun
  }

  function RunOnce(r: Runtime, e: World): (Runtime, Decision) {
    if !r.initialized || !r.core then (r, ToStop)
    else
      var ticked := r.(ticks := r.ticks + 1, lateTicks := r.lateTicks + if r.down then 1 else 0);
      (ticked, if !e.tickOk || e.coreStops then ToStop else ToRun)
  }

  function StopDevice(d: Device): Device {
    if d.Absent? then Absent else Stopped
  }

  function Shutdown(r: Runtime): Runtime {
    var called := r.(shutdowns := r.shutdowns + 1);
    if r.down then called
    else called.(ws := StopDevice(r.ws), mads := StopDevice(r.mads), down := true)
  }

  class BridgeRuntime {
    const manual: bool
    var mads: Device
    var ws: Device
    var core: bool
    var initialized: bool
    var down: bool
    ghost var ticks: nat
    ghost var shutdowns: nat
    ghost var lateTicks: nat

    ghost function View(): Runtime
      reads this
    {
      Runtime(manual, mads, ws, core, initialized, down, ticks, shutdowns, lateTicks)
    }

    constructor (manual: bool, mads: Device, ws: Device)
      ensures View() == Runtime(manual, mads, ws, false, false, false, 0, 0, 0)
    {
      this.manual, this.mads, this.ws := manual, mads, ws;
      core, initialized, down, ticks, shutdowns, lateTicks := false, false, false, 0, 0, 0;
    }

    /** There is a transport of either kind to start. */
    predicate HasTransports(e: World)
      reads this
    {
      if manual then !mads.Absent? && !ws.Absent? else e.agentUp
    }

    method Init(e: World) returns (ok: bool)
      modifies this
      ensures (View(), ok) == Initialize(old(View()), e)
      ensures ok <==> old(initialized) || (old(HasTransports(e)) && e.madsStart.Succeeds? && e.wsStart.Succeeds?)
      ensures initialized == ok && down == old(down)
      ensures old(initialized) ==> mads == old(mads) && ws == old(ws) && core == old(core)
      ensures ok && !old(initialized) ==> core && mads == Started && ws == Started
      ensures !ok ==> core == old(core) && ws == if manual || !e.agentUp then old(ws) else Created
      ensures !ok && old(HasTransports(e)) && e.madsStart.Succeeds? ==> mads == if e.wsStart.Refuses? then Stopped else Started
      ensures !ok && !(old(HasTransports(e)) && e.madsStart.Succeeds?) ==>
                mads == if manual || !e.agentUp then old(mads) else Created
    {
      if initialized {
        return true;
      }
      if !manual {
        if !e.agentUp {
          return false;
        }
        mads := Created;
        ws := Created;
      }
      if mads.Absent? || ws.Absent? {
        return false;
      }
      if !e.madsStart.Succeeds? {
        return false;
      }
      mads := Started;
      if e.wsStart.Throws? {
        return false;
      }
      if e.wsStart.Refuses? {
        mads := Stopped;
        return false;
      }
      ws := Started;
      core := true;
      initialized := true;
      ok := true;
    }

    method Idle(e: World) returns (d: Decision)
      ensures d == IdleDecision(View(), e)
      ensures d == if initialized && e.healthy && !e.stopRequested then ToRun else ToStop
    {
      if !initialized {
        return ToStop;
      }
      if !e.healthy {
        return ToStop;
      }
      if e.stopRequested {
        return ToStop;
      }
      d := ToRun;
    }

    method Tick(e: World) returns (d: Decision)
      modifies this
      ensures (View(), d) == RunOnce(old(View()), e)
      ensures d == if initialized && core && e.tickOk && !e.coreStops then ToRun else ToStop
      ensures ticks == old(ticks) + if initialized && core then 1 else 0
      ensures initialized == old(initialized) && core == old(core) && mads == old(mads) && ws == old(ws) && down == old(down)
    {
      if !initialized || !core {
        return ToStop;
      }
      ticks, lateTicks := ticks + 1, lateTicks + if down then 1 else 0;
      if !e.tickOk {
        return ToStop;
      }
      if e.coreStops {
        return ToStop;
      }
      d := ToRun;
    }

    method Stop()
      modifies this
      ensures View() == Shutdown(old(View()))
      ensures down && (old(down) ==> mads == old(mads) && ws == old(ws))
      ensures !old(down) ==> mads == (if old(mads).Absent? then Absent else Stopped) && ws == if old(ws).Absent? then Absent else Stopped
    {
      shutdowns := shutdowns + 1;
      if down {
        return;
      }
      if core {
        ws := StopDevice(ws);
        mads := StopDevice(mads);
      } else {
        if !ws.Absent? {
          ws := Stopped;
        }
        if !mads.Absent? {
          mads := Stopped;
        }
      }
      down := true;
    }
  }

  // ---- The machine --------------------------------------------------------------

  datatype Node = INIT | IDLE | RUN | STOP

  datatype Next = Go(node: Node) | NoChange

  /** The filters around the state functions: what each state may move to. */
  function Filtered(from: Node, wanted: Next): Next {
    match from
    case INIT => if wanted == Go(IDLE) then wanted else NoChange
    case IDLE => if wanted == Go(INIT) then NoChange else wanted
    case RUN => if wanted == Go(RUN) || wanted == Go(IDLE) then wanted else NoChange
    case STOP => NoChange
  }

  function Chosen(d: Decision): Next {
    match d
    case ToRun => Go(RUN)
    case ToStop => Go(STOP)
    case ToIdle => Go(IDLE)
    case Stay => Go(IDLE)
  }

  /** `do_run` falls back to RUN where `do_idle` falls back to IDLE. */
  function ChosenInRun(d: Decision): Next {
    if d.Stay? then Go(RUN) else Chosen(d)
  }

  function StateFunction(node: Node, r: Runtime, e: World): (Runtime, Next) {
    match node
    case INIT =>
      var (after, ok) := Initialize(r, e);
      (after, Go(if ok then IDLE else STOP))
    case IDLE => (r, Chosen(IdleDecision(r, e)))
    case RUN =>
      var (after, d) := RunOnce(r, e);
      (after, ChosenInRun(d))
    case STOP => (Shutdown(r), NoChange)
  }

  /** `previous` and `node` are the pair the machine keeps; `resets` counts calls of the transition
      function `reset`. */
  datatype Machine = Machine(previous: Node, node: Node, runtime: Runtime, resets: nat)

  function Start(r: Runtime): Machine {
    Machine(INIT, INIT, r, 0)
  }

  function Call(node: Node, r: Runtime, e: World): (Runtime, Node) {
    var (after, wanted) := StateFunction(node, r, e);
    var next := Filtered(node, wanted);
    (after, if next.NoChange? then node else next.node)
  }

  function Eval(m: Machine, e: World): Machine {
    var (runtime, next) := Call(m.node, m.runtime, e);
    Machine(m.node, next, runtime, m.resets + if m.node == RUN && next == IDLE then 1 else 0)
  }

  /** The states the machine goes through, one more than the turns it takes; it takes no turn in STOP. */
  function Trace(m: Machine, es: seq<World>): (ms: seq<Machine>)
    ensures ms != [] && ms[0] == m
    decreases |es|
  {
    if es == [] || m.node == STOP then [m] else [m] + Trace(Eval(m, es[0]), es[1..])
  }

  function Last(m: Machine, es: seq<World>): Machine
    decreases |es|
  {
    if es == [] || m.node == STOP then m else Last(Eval(m, es[0]), es[1..])
  }

  /** `run`: turns until STOP, then the STOP state function once. */
  function Finish(m: Machine, e: World): Runtime {
    if m.node == STOP then Call(STOP, m.runtime, e).0 else m.runtime
  }

  class FiniteStateMachine {
    const data: BridgeRuntime
    var previous: Node
    var node: Node
    ghost var resets: nat

    ghost function View(): Machine
      reads this, data
    {
      Machine(previous, node, data.View(), resets)
    }

    constructor (data: BridgeRuntime)
      ensures View() == Start(data.View()) && this.data == data
    {
      this.data := data;
      previous, node, resets := INIT, INIT, 0;
    }

    method CallState(current: Node, e: World) returns (next: Node)
      modifies data
      ensures (data.View(), next) == Call(current, old(data.View()), e)
    {
      var wanted;
      match current {
        case INIT =>
          var ok := data.Init(e);
          wanted := Go(if ok then IDLE else STOP);
        case IDLE =>
          var d := data.Idle(e);
          wanted := Chosen(d);
        case RUN =>
          var d := data.Tick(e);
          wanted := ChosenInRun(d);
        case STOP =>
          data.Stop();
          wanted := NoChange;
      }
      var filtered := Filtered(current, wanted);
      next := if filtered.NoChange? then current else filtered.node;
    }

    method EvalState(e: World)
      modifies this, data
      ensures View() == Eval(old(View()), e)
    {
      previous := node;
      node := CallState(node, e);
      if previous == RUN && node == IDLE {
        resets := resets + 1;
      }
    }

    /** `run`, for as many turns as the outside is known: it goes on where STOP was not reached. */
    method Run(es: seq<World>, final: World)
      modifies this, data
      ensures var m := Last(Start(old(data.View())), es);
              node == m.node && resets == m.resets && data.View() == Finish(m, final)
    {
      previous, node, resets := INIT, INIT, 0;
      var turn := 0;
      while node != STOP && turn < |es|
        invariant turn <= |es|
        invariant Last(View(), es[turn..]) == Last(Start(old(data.View())), es)
        decreases |es| - turn
      {
        assert es[turn..][1..] == es[turn + 1..];
        EvalState(es[turn]);
        turn := turn + 1;
      }
      if node == STOP {
        var n := CallState(STOP, final);
      }
    }
  }

  // ---- Lifecycle over whole runs ---------------------------------------------------

  /** The edges drawn in fsm.dot. */
  predicate Edge(a: Node, b: Node) {
    || (a == INIT && b == IDLE) || (a == IDLE && b == IDLE) || (a == IDLE && b == RUN)
    || (a == RUN && b == RUN) || (a == RUN && b == IDLE) || (a == IDLE && b == STOP)
  }

  predicate Fresh(r: Runtime) {
    !r.initialized && !r.down && !r.core && r.ticks == 0 && r.shutdowns == 0 && r.lateTicks == 0
  }

  /** Past INIT the runtime is up; only RUN has ticked; nothing has been shut down or reset. */
  predicate Sound(m: Machine) {
    && !m.runtime.down && m.runtime.shutdowns == 0 && m.runtime.lateTicks == 0 && m.resets == 0
    && (m.node == INIT ==> !m.runtime.initialized && !m.runtime.core)
    && (m.node != INIT ==> m.runtime.initialized && m.runtime.core && m.runtime.mads == Started && m.runtime.ws == Started)
    && (m.node != RUN ==> m.runtime.ticks == 0)
  }

  /** Turn `i` of a trace and the turn after it, if there is one. */
  predicate Linked(ms: seq<Machine>, i: nat)
    requires i < |ms|
  {
    i + 1 < |ms| ==>
      && ms[i + 1].previous == ms[i].node
      && (ms[i].node == ms[i + 1].node || Edge(ms[i].node, ms[i + 1].node))
  }

  lemma {:induction false} SoundTrace(m: Machine, es: seq<World>, i: nat)
    requires Sound(m) && i < |Trace(m, es)|
    ensures Sound(Trace(m, es)[i]) && Linked(Trace(m, es), i)
    decreases |es|
  {
    if es != [] && m.node != STOP {
      var rest := Trace(Eval(m, es[0]), es[1..]);
      assert Trace(m, es) == [m] + rest;
      if i > 0 {
        SoundTrace(Eval(m, es[0]), es[1..], i - 1);
        assert Linked(rest, i - 1);
      }
    }
  }

  lemma {:induction false} SoundLast(m: Machine, es: seq<World>)
    requires Sound(m)
    ensures Sound(Last(m, es))
    decreases |es|
  {
    if es != [] && m.node != STOP {
      SoundLast(Eval(m, es[0]), es[1..]);
    }
  }

  /** In IDLE and RUN the runtime is initialised with a core and both transports started, and every
      change of state is an edge of fsm.dot, at every turn of every run. */
  lemma RunsFollowTheGraph(r: Runtime, es: seq<World>, i: nat)
    requires Fresh(r) && i < |Trace(Start(r), es)|
    ensures var m := Trace(Start(r), es)[i];
            m.node == IDLE || m.node == RUN ==>
              m.runtime.initialized && m.runtime.core && m.runtime.mads == Started && m.runtime.ws == Started
    ensures i + 1 < |Trace(Start(r), es)| ==>
              var a, b := Trace(Start(r), es)[i], Trace(Start(r), es)[i + 1];
              b.previous == a.node && (a.node == b.node || Edge(a.node, b.node))
  {
    SoundTrace(Start(r), es, i);
  }

  /** Every run that reaches STOP shuts the runtime down exactly once, with both transports stopped, and
      never ticks: not afterwards, and not before. */
  lemma StopShutsDownOnce(r: Runtime, es: seq<World>, final: World)
    requires Fresh(r) && Last(Start(r), es).node == STOP
    ensures var after := Finish(Last(Start(r), es), final);
            && after.shutdowns == 1 && after.down && after.ticks == 0 && after.lateTicks == 0
            && after.mads == Stopped && after.ws == Stopped
  {
    SoundLast(Start(r), es);
  }

  /** `reset` belongs to the edge from RUN to IDLE, which no decision of the runtime ever takes. */
  lemma ResetNeverFires(r: Runtime, es: seq<World>)
    requires Fresh(r)
    ensures Last(Start(r), es).resets == 0
  {
    SoundLast(Start(r), es);
  }

  /** Once in RUN, always in RUN: neither a stop request nor a failing tick ends the run. */
  lemma {:induction false} RunIsAbsorbing(m: Machine, es: seq<World>)
    requires m.node == RUN
    ensures Last(m, es).node == RUN
    decreases |es|
  {
    if es != [] {
      RunIsAbsorbing(Eval(m, es[0]), es[1..]);
    }
  }

  // ---- When a run stops --------------------------------------------------------------

  /** Does a turn in INIT succeed? */
  predicate Inits(r: Runtime, e: World) {
    (if r.manual then !r.mads.Absent? && !r.ws.Absent? else e.agentUp) && e.madsStart.Succeeds? && e.wsStart.Succeeds?
  }

  predicate WantsStop(e: World) {
    !e.healthy || e.stopRequested
  }

  /** Turn `k` is the first to initialise, and in the next one a stop is wanted. */
  predicate StopsAfter(r: Runtime, es: seq<World>, k: nat) {
    && k + 1 < |es| && Inits(r, es[k]) && WantsStop(es[k + 1])
    && forall j :: 0 <= j < k ==> !Inits(r, es[j])
  }

  /** The machine reaches STOP exactly when, in the turn right after the first one that initialises it, a
      transport is unhealthy or asks to stop. At any other time such a request changes nothing. */
  lemma StopsExactlyWhenAskedInItsOnlyIdleTurn(r: Runtime, es: seq<World>)
    requires !r.initialized
    ensures Last(Start(r), es).node == STOP <==> exists k: nat :: StopsAfter(r, es, k)
  {
    StopsFrom(Start(r), r, es);
  }

  /** Failed attempts to initialise do not change what a later attempt needs. */
  predicate SameNeeds(a: Runtime, b: Runtime) {
    a.manual == b.manual && (a.manual ==> a.mads.Absent? == b.mads.Absent? && a.ws.Absent? == b.ws.Absent?)
  }

  lemma StopsLater(r: Runtime, es: seq<World>, k: nat)
    requires es != [] && !Inits(r, es[0])
    ensures !StopsAfter(r, es, 0)
    ensures StopsAfter(r, es[1..], k) <==> StopsAfter(r, es, k + 1)
  {
    var rest := es[1..];
    assert forall j :: 0 <= j < |rest| ==> rest[j] == es[j + 1];
    if StopsAfter(r, rest, k) {
      forall j | 0 <= j < k + 1 ensures !Inits(r, es[j]) {
        assert j > 0 ==> es[j] == rest[j - 1];
      }
    }
  }

  lemma {:induction false} StopsFrom(m: Machine, r: Runtime, es: seq<World>)
    requires m.node == INIT && !m.runtime.initialized && SameNeeds(m.runtime, r)
    ensures Last(m, es).node == STOP <==> exists k: nat :: StopsAfter(r, es, k)
    decreases |es|
  {
    if es != [] {
      if Inits(r, es[0]) {
        StopsFromInit(m, r, es);
      } else {
        StopsFrom(Eval(m, es[0]), r, es[1..]);
        forall k: nat ensures StopsAfter(r, es[1..], k) <==> StopsAfter(r, es, k + 1) {
          StopsLater(r, es, k);
        }
        StopsLater(r, es, 0);
        forall k: nat | StopsAfter(r, es, k) ensures k > 0 && StopsAfter(r, es[1..], k - 1) {
          if k > 0 { StopsLater(r, es, k - 1); }
        }
      }
    }
  }

  lemma StopsFromInit(m: Machine, r: Runtime, es: seq<World>)
    requires m.node == INIT && !m.runtime.initialized && SameNeeds(m.runtime, r) && es != [] && Inits(r, es[0])
    ensures Last(m, es).node == STOP <==> exists k: nat :: StopsAfter(r, es, k)
  {
    var next, rest := Eval(m, es[0]), es[1..];
    assert next.node == IDLE && next.runtime.initialized;
    assert forall k: nat :: StopsAfter(r, es, k) ==> k == 0;
    if rest != [] {
      var third := Eval(next, rest[0]);
      if WantsStop(es[1]) {
        assert StopsAfter(r, es, 0);
        assert third.node == STOP;
        assert Last(next, rest) == Last(third, rest[1..]);
      } else {
        RunIsAbsorbing(third, rest[1..]);
      }
    }
  }

  // ---- With the bridge's own MADS transport ------------------------------------------------

  /** One turn: the outside, and what the agent delivers and whether it still runs, if the turn ticks. */
  datatype Feed = Feed(outside: World, receipts: seq<Receipt>, running: bool)

  function Outside(fs: seq<Feed>): (es: seq<World>)
    ensures |es| == |fs|
  {
    seq(|fs|, i requires 0 <= i < |fs| => fs[i].outside)
  }

  /** The transport after a turn of the machine. Initialising makes a new one, unless it was handed in, and
      starts it; a tick polls it; nothing else touches its stop request. */
  function TransportTurn(c: Codec, m: Machine, t: Mads, f: Feed): Mads {
    match m.node
    case INIT =>
      if !m.runtime.manual && !f.outside.agentUp then t
      else
        var made := if m.runtime.manual then t else STARTED.(started := false);
        if f.outside.madsStart.Succeeds? then made.(started := true) else made.(healthy := false)
    case RUN => Poll(c, t, f.receipts, f.running)
    case _ => t
  }

  /** In every idle turn the stop request is the one the transport reports. */
  predicate Reports(c: Codec, m: Machine, t: Mads, fs: seq<Feed>)
    decreases |fs|
  {
    fs != [] && m.node != STOP ==>
      && (m.node == IDLE ==> fs[0].outside.stopRequested == t.shouldStop)
      && Reports(c, Eval(m, fs[0].outside), TransportTurn(c, m, t, fs[0]), fs[1..])
  }

  /** Turn `k` is the first to initialise, and in the next one a transport is unhealthy. */
  predicate FailsAfter(r: Runtime, es: seq<World>, k: nat) {
    && k + 1 < |es| && Inits(r, es[k]) && !es[k + 1].healthy
    && forall j :: 0 <= j < k ==> !Inits(r, es[j])
  }

  lemma {:induction false} NotAskedInItsIdleTurn(c: Codec, m: Machine, r: Runtime, t: Mads, fs: seq<Feed>, k: nat)
    requires m.node == INIT && !m.runtime.initialized && SameNeeds(m.runtime, r)
    requires !t.shouldStop && Reports(c, m, t, fs)
    requires k + 1 < |fs| && Inits(r, fs[k].outside) && forall j :: 0 <= j < k ==> !Inits(r, fs[j].outside)
    ensures !fs[k + 1].outside.stopRequested
    decreases k
  {
    var next := Eval(m, fs[0].outside);
    if k == 0 {
      assert next.node == IDLE;
      assert fs[1..] != [] && fs[1..][0] == fs[1];
    } else {
      assert !Inits(r, fs[0].outside);
      forall j | 0 <= j < k - 1 ensures !Inits(r, fs[1..][j].outside) {
        assert fs[1..][j] == fs[j + 1];
      }
      NotAskedInItsIdleTurn(c, next, r, TransportTurn(c, m, t, fs[0]), fs[1..], k - 1);
    }
  }

  /** The bridge's own transport takes up a stop request only while it is polled, which only ticks do, and
      RUN is never left: so no stop request ever ends a run. It reaches STOP exactly when a transport is
      unhealthy in the turn right after the first one that initialises it. */
  lemma NoStopRequestEndsARun(c: Codec, r: Runtime, t: Mads, fs: seq<Feed>)
    requires !r.initialized && !t.shouldStop && Reports(c, Start(r), t, fs)
    ensures Last(Start(r), Outside(fs)).node == STOP <==> exists k: nat :: FailsAfter(r, Outside(fs), k)
  {
    var es := Outside(fs);
    StopsExactlyWhenAskedInItsOnlyIdleTurn(r, es);
    forall k: nat ensures StopsAfter(r, es, k) <==> FailsAfter(r, es, k) {
      if k + 1 < |es| && Inits(r, es[k]) && forall j :: 0 <= j < k ==> !Inits(r, es[j]) {
        forall j | 0 <= j < k ensures !Inits(r, fs[j].outside) {
          assert !Inits(r, es[j]);
        }
        NotAskedInItsIdleTurn(c, Start(r), r, t, fs, k);
      }
    }
  }
}
