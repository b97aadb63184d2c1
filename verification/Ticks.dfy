/** What one tick gets done, and what its answer says. */
module Ticks {
  import opened Common
  import opened Transport
  import opened MadsBroker
  import opened Engine
  import opened Coherence
  import opened Accounting

  /** What has been taken in from clients since `s` is published, in hand, or still to come. */
  predicate CourseUp(s: State, m: State) {
    s.log.published + s.ws.inbound
      <= m.log.published + if m.bridge.DrainingWs? || m.bridge.Publishing? then InHandUp(m.bridge) + m.ws.inbound else []
  }

  /** What was queued once MADS had been polled is broadcast, in hand, or still to come. */
  predicate CourseDown(s: State, polled: Mads, m: State) {
    && m.log.broadcasts + InHandDown(m.bridge) + m.mads.queue == s.log.broadcasts + polled.queue
    && (m.bridge.Checking? || m.bridge.Resting? ==> m.mads.queue == [])
  }

  /** The tick that began in `s` and found `polled` has come as far as `m`, and has not failed. */
  predicate Course(s: State, polled: Mads, m: State) {
    && CourseUp(s, m) && CourseDown(s, polled, m)
    && m.mads.shouldStop == polled.shouldStop && m.mads.started == polled.started
    && (m.mads.healthy ==> polled.healthy)
    && if m.bridge.Resting? then s.core.healthy && m.core == Core(true, s.core.shouldStop || polled.shouldStop)
       else m.core == s.core
  }

  lemma CourseBegins(g: Config, s: State, rs: seq<Receipt>, running: bool)
    requires DoStartTick(g, s, rs, running).Some?
    ensures Course(s, Poll(g.codec, s.mads, rs, running), DoStartTick(g, s, rs, running).value)
  {}

  lemma CourseService(g: Config, s: State, polled: Mads, m: State, a: Action)
    requires Course(s, polled, m) && IsService(a) && Step(g, m, a).Some?
    ensures Course(s, polled, Step(g, m, a).value)
  {
    ServiceFrame(g, m, a);
    ServiceExtendsInbound(g, m, a);
  }

  lemma CourseTakes(g: Config, s: State, polled: Mads, m: State, a: Action)
    requires Course(s, polled, m) && (a.PopWs? || a.PopMads?) && Step(g, m, a).Some?
    ensures Course(s, polled, Step(g, m, a).value)
  {
    if a.PopWs? && m.ws.inbound != [] {
      assert [] + m.ws.inbound == [m.ws.inbound[0]] + m.ws.inbound[1..];
    } else if a.PopMads? && m.mads.queue != [] {
      assert m.log.broadcasts + [] + m.mads.queue == m.log.broadcasts + [m.mads.queue[0]] + m.mads.queue[1..];
    }
  }

  lemma CoursePasses(g: Config, s: State, polled: Mads, m: State, a: Action)
    requires Course(s, polled, m) && (a.DoPublish? || a.Admit? || a.Push? || a.Signal?) && Step(g, m, a).Some?
    requires Step(g, m, a).value.log.failedTicks == m.log.failedTicks
    ensures Course(s, polled, Step(g, m, a).value)
  {
    if a.DoPublish? {
      AppendAssoc(m.log.published, [m.bridge.message], m.ws.inbound);
    } else if a.Push? {
      assert m.log.broadcasts + [m.bridge.message] + m.mads.queue == (m.log.broadcasts + [m.bridge.message]) + [] + m.mads.queue;
    }
  }

  lemma CourseEnds(g: Config, s: State, polled: Mads, m: State, a: Action)
    requires Course(s, polled, m) && (a.Check? || a.ConsumeCount?) && Step(g, m, a).Some?
    requires Step(g, m, a).value.log.failedTicks == m.log.failedTicks
    ensures Course(s, polled, Step(g, m, a).value)
  {}

  lemma CourseStep(g: Config, s: State, polled: Mads, m: State, a: Action)
    requires Course(s, polled, m) && !a.StartTick? && Step(g, m, a).Some?
    requires Step(g, m, a).value.log.failedTicks == m.log.failedTicks
    ensures Course(s, polled, Step(g, m, a).value)
  {
    if IsService(a) { CourseService(g, s, polled, m, a); }
    else if a.PopWs? || a.PopMads? { CourseTakes(g, s, polled, m, a); }
    else if a.Check? || a.ConsumeCount? { CourseEnds(g, s, polled, m, a); }
    else { CoursePasses(g, s, polled, m, a); }
  }

  lemma TicksOnlyGrow(g: Config, s: State, a: Action)
    requires Step(g, s, a).Some?
    ensures var t := Step(g, s, a).value;
            t.log.failedTicks >= s.log.failedTicks && t.log.ticks == s.log.ticks + if a.StartTick? then 1 else 0
  {
    if IsService(a) { ServiceFrame(g, s, a); }
  }

  /** A run that begins with a tick, and in which no other tick begins and none fails. */
  predicate OneGoodTick(g: Config, s: State, acts: seq<Action>, t: State) {
    && Exec(g, s, acts) == Some(t) && acts != [] && acts[0].StartTick?
    && t.log.ticks == s.log.ticks + 1 && t.log.failedTicks == s.log.failedTicks
  }

  lemma {:induction false} CountsOnlyGrow(g: Config, s: State, acts: seq<Action>, t: State)
    requires Exec(g, s, acts) == Some(t) && acts != [] && acts[0].StartTick?
    ensures t.log.ticks > s.log.ticks && t.log.failedTicks >= s.log.failedTicks
  {
    var before, a := acts[..|acts| - 1], acts[|acts| - 1];
    var mid := Exec(g, s, before).value;
    TicksOnlyGrow(g, mid, a);
    if before != [] { CountsOnlyGrow(g, s, before, mid); }
  }

  lemma {:induction false} CourseRun(g: Config, s: State, acts: seq<Action>, t: State)
    requires OneGoodTick(g, s, acts, t)
    ensures Course(s, Poll(g.codec, s.mads, acts[0].receipts, acts[0].running), t)
  {
    var before, a := acts[..|acts| - 1], acts[|acts| - 1];
    var mid := Exec(g, s, before).value;
    if before == [] {
      CourseBegins(g, s, a.receipts, a.running);
    } else {
      TicksOnlyGrow(g, mid, a);
      CountsOnlyGrow(g, s, before, mid);
      CourseRun(g, s, before, mid);
      CourseStep(g, s, Poll(g.codec, s.mads, acts[0].receipts, acts[0].running), mid, a);
    }
  }

  /** Whatever ticks have failed since `s`, the core knows, and there is a cause. */
  predicate FailuresTold(s: State, m: State) {
    if m.log.failedTicks == s.log.failedTicks then
      m.core.healthy == s.core.healthy && (s.core.shouldStop ==> m.core.shouldStop)
    else
      && m.log.failedTicks > s.log.failedTicks && !m.core.healthy
      && (s.core.healthy || s.core.shouldStop ==> m.core.shouldStop)
      && (!m.mads.started || !m.mads.healthy || !m.ws.healthy || !s.core.healthy)
  }

  lemma FailuresToldStep(g: Config, s: State, m: State, a: Action)
    requires FailuresTold(s, m) && Step(g, m, a).Some?
    ensures FailuresTold(s, Step(g, m, a).value)
  {
    if IsService(a) { ServiceFrame(g, m, a); }
    else if a.StartTick? { PollFrame(g.codec, m.mads, a.receipts, a.running); }
  }

  lemma {:induction false} FailuresAreTold(g: Config, s: State, acts: seq<Action>, t: State)
    requires Exec(g, s, acts) == Some(t)
    ensures FailuresTold(s, t)
  {
    if acts != [] {
      var mid := Exec(g, s, acts[..|acts| - 1]).value;
      FailuresAreTold(g, s, acts[..|acts| - 1], mid);
      FailuresToldStep(g, s, mid, acts[|acts| - 1]);
    }
  }

  /** Where ticks have failed, the core is unhealthy for good and wants to stop, and a transport has failed,
      or the core was unhealthy to begin with. */
  lemma FailedTickMeaning(g: Config, s: State, acts: seq<Action>, t: State)
    requires Exec(g, s, acts) == Some(t) && t.log.failedTicks > s.log.failedTicks
    ensures !t.core.healthy && (s.core.healthy || s.core.shouldStop ==> t.core.shouldStop)
    ensures !t.mads.started || !t.mads.healthy || !t.ws.healthy || !s.core.healthy
  {
    FailuresAreTold(g, s, acts, t);
  }

  /** A tick that does not fail leaves nothing behind: it publishes everything that had arrived from
      clients, broadcasts everything that was queued and everything it polled, and takes up the stop request. */
  lemma GoodTickFinishesItsWork(g: Config, s: State, acts: seq<Action>, t: State)
    requires OneGoodTick(g, s, acts, t) && t.bridge.Resting?
    ensures s.log.published + s.ws.inbound <= t.log.published
    ensures s.mads.started && s.mads.healthy ==>
              t.log.broadcasts == s.log.broadcasts + s.mads.queue + Routed(g.codec, Heard(g.codec, acts[0].receipts))
    ensures !(s.mads.started && s.mads.healthy) ==> t.log.broadcasts == s.log.broadcasts + s.mads.queue
    ensures t.mads.queue == []
    ensures s.core.healthy && t.core == Core(true, s.core.shouldStop || t.mads.shouldStop)
  {
    CourseRun(g, s, acts, t);
    PollMeaning(g.codec, s.mads, acts[0].receipts, acts[0].running);
    if s.mads.started && s.mads.healthy {
      AppendAssoc(s.log.broadcasts, s.mads.queue, Routed(g.codec, Heard(g.codec, acts[0].receipts)));
    }
    assert t.log.broadcasts + [] + [] == t.log.broadcasts;
  }

  /** The receipts that polling goes on after. */
  function Heard(c: Codec, rs: seq<Receipt>): seq<Receipt> {
    rs[..FirstStop(c, rs)]
  }
}
