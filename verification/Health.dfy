/** Exactly what costs the transports their health, fails a tick, and raises each flag, over any run. */
module Health {
  import opened Common
  import opened Reassembly
  import opened Transport
  import opened TopicPath
  import opened MadsBroker
  import opened Engine
  import opened Coherence

  /** How many steps of a run are `counted`, each seen in the state it is made in. */
  function Times(g: Config, s: State, acts: seq<Action>, counted: (State, Action) -> bool): nat
    requires Exec(g, s, acts).Some?
  {
    if acts == [] then 0
    else
      var before := acts[..|acts| - 1];
      Times(g, s, before, counted) + if counted(Exec(g, s, before).value, acts[|acts| - 1]) then 1 else 0
  }

  // ---- Health --------------------------------------------------------------

  /** A frame or a body chunk the library did not take in full, a whole message that is not JSON, or an
      established connection whose path names no topic. */
  predicate HarmsWs(g: Config, s: State, a: Action) {
    || (a.WireWrite? && !a.ok)
    || a.HttpFailure?
    || (a.Receive? && a.wsi in s.ws.sessions && a.fragment.last
        && g.codec.parse(s.ws.sessions[a.wsi].rx + a.fragment.text).None?)
    || (a.Establish? && a.wsi in s.net.conns && TopicFromUri(s.net.conns[a.wsi].uri, g.basePath).None?)
  }

  /** Polling that ends with an exception, or a publication that throws. */
  predicate HarmsMads(g: Config, s: State, a: Action) {
    s.mads.started && s.mads.healthy && ((a.StartTick? && !EndsQuietly(g.codec, a.receipts)) || (a.DoPublish? && a.threw))
  }

  lemma WsHealthStep(g: Config, s: State, a: Action)
    requires Step(g, s, a).Some?
    ensures Step(g, s, a).value.ws.healthy <==> s.ws.healthy && !HarmsWs(g, s, a)
  {}

  lemma MadsHealthStep(g: Config, s: State, a: Action)
    requires Step(g, s, a).Some?
    ensures Step(g, s, a).value.mads.healthy <==> s.mads.healthy && !HarmsMads(g, s, a)
  {
    if IsService(a) { ServiceFrame(g, s, a); }
    else if a.StartTick? { PollMeaning(g.codec, s.mads, a.receipts, a.running); }
  }

  /** The WebSocket transport is healthy as long as none of these has happened, and never again after. */
  lemma {:induction false} WsHealthIsLostExactly(g: Config, s: State, acts: seq<Action>, t: State)
    requires Exec(g, s, acts) == Some(t)
    ensures t.ws.healthy <==> s.ws.healthy && Times(g, s, acts, (m: State, a: Action) => HarmsWs(g, m, a)) == 0
  {
    if acts != [] {
      var mid := Exec(g, s, acts[..|acts| - 1]).value;
      WsHealthIsLostExactly(g, s, acts[..|acts| - 1], mid);
      WsHealthStep(g, mid, acts[|acts| - 1]);
    }
  }

  lemma {:induction false} MadsHealthIsLostExactly(g: Config, s: State, acts: seq<Action>, t: State)
    requires Exec(g, s, acts) == Some(t)
    ensures t.mads.healthy <==> s.mads.healthy && Times(g, s, acts, (m: State, a: Action) => HarmsMads(g, m, a)) == 0
  {
    if acts != [] {
      var mid := Exec(g, s, acts[..|acts| - 1]).value;
      MadsHealthIsLostExactly(g, s, acts[..|acts| - 1], mid);
      MadsHealthStep(g, mid, acts[|acts| - 1]);
    }
  }

  // ---- Failed ticks and stop requests ------------------------------------------

  /** A publication that fails, a broadcast that is not let in, or a transport found unhealthy by the last
      checks of a tick. */
  predicate FindsFailure(s: State, a: Action) {
    || (a.DoPublish? && (a.threw || !s.mads.started || !s.mads.healthy))
    || (a.Admit? && !s.ws.healthy)
    || (a.Check? && (!s.mads.healthy || !s.ws.healthy))
  }

  predicate FailsTick(s: State, a: Action) {
    FindsFailure(s, a) || (a.Check? && !s.core.healthy)
  }

  predicate StopsCore(s: State, a: Action) {
    FindsFailure(s, a) || (a.Check? && s.mads.shouldStop)
  }

  /** A poll that ends without an exception and finds that the agent no longer runs. */
  predicate AsksToStop(g: Config, s: State, a: Action) {
    a.StartTick? && s.mads.started && s.mads.healthy && EndsQuietly(g.codec, a.receipts) && !a.running
  }

  lemma CoreStep(g: Config, s: State, a: Action)
    requires Step(g, s, a).Some?
    ensures var t := Step(g, s, a).value;
            && t.log.failedTicks == s.log.failedTicks + (if FailsTick(s, a) then 1 else 0)
            && (t.core.healthy <==> s.core.healthy && !FailsTick(s, a))
            && (t.core.shouldStop <==> s.core.shouldStop || StopsCore(s, a))
  {
    if IsService(a) { ServiceFrame(g, s, a); }
  }

  /** Ticks fail exactly where a failure is found, or the core is unhealthy already; the core is healthy
      exactly if none has; and it wants to stop exactly if a failure was found or a last check found the
      stop request of the MADS transport. */
  lemma {:induction false} TicksFailExactly(g: Config, s: State, acts: seq<Action>, t: State)
    requires Exec(g, s, acts) == Some(t)
    ensures t.log.failedTicks == s.log.failedTicks + Times(g, s, acts, FailsTick)
    ensures t.core.healthy <==> s.core.healthy && Times(g, s, acts, FailsTick) == 0
    ensures t.core.shouldStop <==> s.core.shouldStop || Times(g, s, acts, StopsCore) > 0
  {
    if acts != [] {
      var mid := Exec(g, s, acts[..|acts| - 1]).value;
      TicksFailExactly(g, s, acts[..|acts| - 1], mid);
      CoreStep(g, mid, acts[|acts| - 1]);
    }
  }

  lemma StopRequestStep(g: Config, s: State, a: Action)
    requires Step(g, s, a).Some?
    ensures Step(g, s, a).value.mads.shouldStop <==> s.mads.shouldStop || AsksToStop(g, s, a)
  {
    if IsService(a) { ServiceFrame(g, s, a); }
    else if a.StartTick? { PollMeaning(g.codec, s.mads, a.receipts, a.running); }
  }

  lemma {:induction false} StopIsRequestedExactly(g: Config, s: State, acts: seq<Action>, t: State)
    requires Exec(g, s, acts) == Some(t)
    ensures t.mads.shouldStop <==> s.mads.shouldStop || Times(g, s, acts, (m: State, a: Action) => AsksToStop(g, m, a)) > 0
  {
    if acts != [] {
      var mid := Exec(g, s, acts[..|acts| - 1]).value;
      StopIsRequestedExactly(g, s, acts[..|acts| - 1], mid);
      StopRequestStep(g, mid, acts[|acts| - 1]);
    }
  }

  // ---- The client count ----------------------------------------------------------

  predicate ChangesCount(g: Config, s: State, a: Action) {
    a.Close? || (a.Establish? && a.wsi in s.net.conns && TopicFromUri(s.net.conns[a.wsi].uri, g.basePath).Some?)
  }

  lemma CountFlagStep(g: Config, s: State, a: Action)
    requires Step(g, s, a).Some?
    ensures Step(g, s, a).value.ws.countChanged <==> !a.ConsumeCount? && (s.ws.countChanged || ChangesCount(g, s, a))
  {}

  /** Until the client count is asked for again, the change flag is set exactly if it was, or a connection
      was accepted or closed since. */
  lemma {:induction false} CountFlagIsSetExactly(g: Config, s: State, acts: seq<Action>, t: State)
    requires Exec(g, s, acts) == Some(t) && forall i :: 0 <= i < |acts| ==> !acts[i].ConsumeCount?
    ensures t.ws.countChanged <==> s.ws.countChanged || Times(g, s, acts, (m: State, a: Action) => ChangesCount(g, m, a)) > 0
  {
    if acts != [] {
      var mid := Exec(g, s, acts[..|acts| - 1]).value;
      CountFlagIsSetExactly(g, s, acts[..|acts| - 1], mid);
      CountFlagStep(g, mid, acts[|acts| - 1]);
    }
  }
}
