/** The command-line client in publish mode: an input thread queues JSON lines, a service loop sends
    them, and the loop must not end cleanly with lines unsent. */
module Client {
  import opened Common

  // ---- State of both threads -----------------------------------------------------

  /** `ClientState` and the running flag. In publish mode there is one connection. */
  datatype Shared = Shared(
    queue: seq<string>,
    connectFailed: bool,
    closeRequested: bool,
    hasError: bool,
    publishing: bool,
    running: bool)

  datatype Link = Up | Broken | Down

  /** The service loop: reading the running flag, inside `lws_service`, sending a frame, just after a
      successful send, or out of the loop. */
  datatype LoopPc = Testing | Serving | Sending(frame: string) | Sent | Ended

  /** The input thread: reading the running flag, waiting for a line, about to queue one, about to wake
      the service loop, about to request the close, or finished. */
  datatype InputPc = Looking | Reading | Queueing(line: string) | Waking | Closing | Finished

  /** Why the running flag was first cleared. */
  datatype Cause = Drained | ConnectFailure | WriteFailure | ConnectionClosed | Interrupted

  /** `lines`: what the user typed, `None` for end of input. */
  datatype Log = Log(
    lines: seq<Option<string>>,
    accepted: seq<string>,
    frames: seq<string>,
    lost: seq<string>,
    cause: Option<Cause>)

  datatype State = State(sh: Shared, link: Link, writable: bool, wakePending: bool, loop: LoopPc, input: InputPc, log: Log)

  const START := State(
    Shared([], false, false, false, true, true), Up, false, false, Testing, Looking, Log([], [], [], [], None))

  datatype Action =
    // service loop
    | TestRunning
    | Writeable
    | SendDone(ok: bool)
    | AfterSend
    | ConnectionError
    | ConnectionGone
    | LoopBody
    // input thread
    | Look
    | Type(line: Option<string>)
    | Queue
    | WakeLoop
    | RequestClose
    // anyone
    | Interrupt

  predicate IsInput(a: Action) {
    a.Look? || a.Type? || a.Queue? || a.WakeLoop? || a.RequestClose?
  }

  predicate IsLoop(a: Action) {
    !IsInput(a) && !a.Interrupt?
  }

  // ---- Critical sections -----------------------------------------------------------

  function Body(sh: Shared): Shared {
    sh.(running := sh.running && !sh.connectFailed && !(sh.closeRequested && sh.queue == []))
  }

  function Gone(sh: Shared): Shared {
    sh.(publishing := false, hasError := sh.hasError || (sh.running && !sh.closeRequested), running := false)
  }

  function Stop(log: Log, running: bool, cause: Cause): Log {
    if running then log.(cause := Some(cause)) else log
  }

  // ---- Steps -------------------------------------------------------------------------

  function Step(c: Codec, s: State, a: Action): Option<State> {
    match a
    case TestRunning =>
      if !s.loop.Testing? then None
      else Some(s.(loop := if s.sh.running then Serving else Ended))
    case Writeable =>
      if !s.loop.Serving? || !s.writable || !s.link.Up? then None
      else if s.sh.queue == [] then Some(s.(writable := false))
      else Some(s.(sh := s.sh.(queue := s.sh.queue[1..]), writable := false, loop := Sending(s.sh.queue[0])))
    case SendDone(ok) =>
      if !s.loop.Sending? then None
      else if ok then Some(s.(loop := Sent, log := s.log.(frames := s.log.frames + [s.loop.frame])))
      else Some(s.(sh := s.sh.(hasError := true, running := false), link := Broken, loop := Serving,
                   log := Stop(s.log.(lost := s.log.lost + [s.loop.frame]), s.sh.running, WriteFailure)))
    case AfterSend =>
      if !s.loop.Sent? then None
      else Some(s.(writable := s.writable || s.sh.queue != [], loop := Serving))
    case ConnectionError =>
      if !s.loop.Serving? || !s.link.Up? then None
      else Some(s.(sh := s.sh.(connectFailed := true, hasError := true), link := Down))
    case ConnectionGone =>
      if !s.loop.Serving? || s.link.Down? then None
      else Some(s.(sh := Gone(s.sh), link := Down, writable := false, log := Stop(s.log, s.sh.running, ConnectionClosed)))
    case LoopBody =>
      if !s.loop.Serving? then None
      else
        var cause := if s.sh.connectFailed then ConnectFailure else Drained;
        Some(s.(sh := Body(s.sh), wakePending := false,
                writable := s.writable || (s.sh.publishing && s.sh.queue != []), loop := Testing,
                log := if Body(s.sh).running then s.log else Stop(s.log, s.sh.running, cause)))
    case Look =>
      if !s.input.Looking? then None
      else Some(s.(input := if s.sh.running then Reading else Finished))
    case Type(line) =>
      if !s.input.Reading? then None
      else
        var next :=
          if line.None? || line.value == "" then Closing
          else match c.parse(line.value) case None => Looking case Some(json) => Queueing(c.dump(json));
        Some(s.(input := next, log := s.log.(lines := s.log.lines + [line])))
    case Queue =>
      if !s.input.Queueing? then None
      else Some(s.(sh := s.sh.(queue := s.sh.queue + [s.input.line]), input := Waking,
                   log := s.log.(accepted := s.log.accepted + [s.input.line])))
    case WakeLoop =>
      if !s.input.Waking? then None else Some(s.(wakePending := true, input := Looking))
    case RequestClose =>
      if !s.input.Closing? then None
      else Some(s.(sh := s.sh.(closeRequested := true), input := Finished))
    case Interrupt =>
      Some(s.(sh := s.sh.(running := false), log := Stop(s.log, s.sh.running, Interrupted)))
  }

  function Exec(c: Codec, s: State, acts: seq<Action>): Option<State> {
    if acts == [] then Some(s)
    else match Exec(c, s, acts[..|acts| - 1])
      case None => None
      case Some(before) => Step(c, before, acts[|acts| - 1])
  }

  // ---- What always holds ---------------------------------------------------------------

  /** What the lines typed so far amount to: each JSON line, normalised. */
  function Typed(c: Codec, lines: seq<Option<string>>): seq<string> {
    if lines == [] then []
    else
      Typed(c, lines[..|lines| - 1]) + TypedOne(c, lines[|lines| - 1])
  }

  function InFlight(loop: LoopPc): seq<string> {
    if loop.Sending? then [loop.frame] else []
  }

  function InHand(input: InputPc): seq<string> {
    if input.Queueing? then [input.line] else []
  }

  /** What one more line amounts to. */
  function TypedOne(c: Codec, line: Option<string>): seq<string> {
    if line.Some? && line.value != "" && c.parse(line.value).Some? then [c.dump(c.parse(line.value).value)] else []
  }

  /** Every JSON line typed was accepted, or is about to be. */
  predicate Accepted(c: Codec, log: Log, input: InputPc) {
    Typed(c, log.lines) == log.accepted + InHand(input)
  }

  /** What was accepted was written or lost, is being sent, or is queued, in order. */
  predicate Conserved(log: Log, flying: seq<string>, queue: seq<string>) {
    log.accepted == log.frames + log.lost + flying + queue
  }

  predicate Orderly(s: State) {
    && (s.log.lost != [] ==> s.sh.hasError && !s.link.Up? && !s.sh.running && !s.loop.Sending? && !s.loop.Sent?)
    && (s.loop.Sending? || s.loop.Sent? ==> s.link.Up?)
    && (s.sh.closeRequested ==> s.input.Finished?)
    && (s.log.cause.None? <==> s.sh.running)
    && (s.loop.Ended? ==> !s.sh.running)
    && (s.log.cause == Some(Drained) ==>
          && s.sh.closeRequested && s.sh.queue == [] && s.log.lost == []
          && (s.loop.Testing? || s.loop.Ended?))
  }

  predicate Sound(c: Codec, s: State) {
    Accepted(c, s.log, s.input) && Conserved(s.log, InFlight(s.loop), s.sh.queue) && Orderly(s)
  }

  lemma TypedSnoc(c: Codec, lines: seq<Option<string>>, line: Option<string>)
    ensures Typed(c, lines + [line]) == Typed(c, lines) + TypedOne(c, line)
  {
    assert (lines + [line])[..|lines|] == lines;
  }

  lemma QueueConserves(log: Log, flying: seq<string>, queue: seq<string>, line: string)
    requires Conserved(log, flying, queue)
    ensures Conserved(log.(accepted := log.accepted + [line]), flying, queue + [line])
  {
    AppendAssoc(log.frames + log.lost + flying, queue, [line]);
  }

  lemma TakeConserves(log: Log, queue: seq<string>)
    requires Conserved(log, [], queue) && queue != []
    ensures Conserved(log, [queue[0]], queue[1..])
  {
    var done := log.frames + log.lost;
    assert done + [] + queue == done + [queue[0]] + queue[1..];
  }

  lemma SentConserves(log: Log, frame: string, queue: seq<string>)
    requires Conserved(log, [frame], queue) && log.lost == []
    ensures Conserved(log.(frames := log.frames + [frame]), [], queue)
    ensures Conserved(log.(lost := log.lost + [frame]), [], queue)
  {
    assert log.frames + [] + [frame] + queue == (log.frames + [frame]) + [] + [] + queue;
    assert log.frames + [] + [frame] + queue == log.frames + ([] + [frame]) + [] + queue;
  }

  lemma OrderlyStep(c: Codec, s: State, a: Action)
    requires Orderly(s) && Step(c, s, a).Some?
    ensures Orderly(Step(c, s, a).value)
  {}

  lemma SoundInput(c: Codec, s: State, a: Action)
    requires Sound(c, s) && IsInput(a) && Step(c, s, a).Some?
    ensures Sound(c, Step(c, s, a).value)
  {
    OrderlyStep(c, s, a);
    match a
    case Type(line) => SoundType(c, s, line);
    case Queue => SoundQueue(c, s);
    case _ =>
  }

  lemma SoundType(c: Codec, s: State, line: Option<string>)
    requires Accepted(c, s.log, s.input) && Step(c, s, Type(line)).Some?
    ensures var t := Step(c, s, Type(line)).value;
            Accepted(c, t.log, t.input) && t.log == s.log.(lines := s.log.lines + [line]) && t.loop == s.loop && t.sh == s.sh
  {
    TypedSnoc(c, s.log.lines, line);
  }

  lemma SoundQueue(c: Codec, s: State)
    requires Sound(c, s) && Step(c, s, Queue).Some?
    ensures var t := Step(c, s, Queue).value;
            Accepted(c, t.log, t.input) && Conserved(t.log, InFlight(t.loop), t.sh.queue)
  {
    QueueConserves(s.log, InFlight(s.loop), s.sh.queue, s.input.line);
  }

  lemma SoundSend(c: Codec, s: State, a: Action)
    requires Sound(c, s) && (a.Writeable? || a.SendDone? || a.AfterSend?) && Step(c, s, a).Some?
    ensures Sound(c, Step(c, s, a).value)
  {
    OrderlyStep(c, s, a);
    if a.Writeable? && s.sh.queue != [] {
      TakeConserves(s.log, s.sh.queue);
    } else if a.SendDone? {
      SentConserves(s.log, s.loop.frame, s.sh.queue);
    }
  }

  lemma SoundLoop(c: Codec, s: State, a: Action)
    requires Sound(c, s) && !IsInput(a) && !a.Writeable? && !a.SendDone? && !a.AfterSend? && Step(c, s, a).Some?
    ensures Sound(c, Step(c, s, a).value)
  {}

  lemma {:induction false} SoundRun(c: Codec, acts: seq<Action>, s: State)
    requires Exec(c, START, acts) == Some(s)
    ensures Sound(c, s)
  {
    if acts != [] {
      var before, a := Exec(c, START, acts[..|acts| - 1]).value, acts[|acts| - 1];
      SoundRun(c, acts[..|acts| - 1], before);
      if IsInput(a) { SoundInput(c, before, a); }
      else if a.Writeable? || a.SendDone? || a.AfterSend? { SoundSend(c, before, a); }
      else { SoundLoop(c, before, a); }
    }
  }

  /** In every interleaving, what was written is a prefix of the JSON lines typed, in order. */
  lemma WrittenIsAPrefix(c: Codec, acts: seq<Action>, s: State)
    requires Exec(c, START, acts) == Some(s)
    ensures s.log.frames <= s.log.accepted <= Typed(c, s.log.lines)
  {
    SoundRun(c, acts, s);
  }

  /** A loop that stops because the close was requested and the queue is empty has written every JSON
      line typed, and nothing can be added any more. */
  lemma CleanExitDrains(c: Codec, acts: seq<Action>, s: State)
    requires Exec(c, START, acts) == Some(s) && s.log.cause == Some(Drained)
    ensures s.log.frames == s.log.accepted == Typed(c, s.log.lines)
    ensures s.sh.queue == [] && s.input.Finished? && !s.loop.Serving?
  {
    SoundRun(c, acts, s);
  }

  // ---- Exactly which exits lose lines -------------------------------------------------

  /** What the link, the error and the cause of the exit say about each other. */
  predicate Explained(s: State) {
    && (s.link.Up? ==> s.sh.publishing && !s.sh.connectFailed && !s.sh.hasError)
    && (s.sh.connectFailed ==> s.sh.hasError)
    && (s.log.cause == Some(ConnectFailure) || s.log.cause == Some(WriteFailure) ==> s.sh.hasError)
    && (s.log.cause == Some(ConnectionClosed) && !s.sh.hasError ==> s.sh.closeRequested)
  }

  lemma ExplainedStep(c: Codec, s: State, a: Action)
    requires Explained(s) && Step(c, s, a).Some?
    ensures Explained(Step(c, s, a).value)
  {}

  lemma {:induction false} ExplainedRun(c: Codec, acts: seq<Action>, s: State)
    requires Exec(c, START, acts) == Some(s)
    ensures Explained(s)
  {
    if acts != [] {
      var before := Exec(c, START, acts[..|acts| - 1]).value;
      ExplainedRun(c, acts[..|acts| - 1], before);
      ExplainedStep(c, before, acts[|acts| - 1]);
    }
  }

  /** Without an error a loop ends for one of three causes only: the queue was drained, the connection
      closed after the close was requested, or an interrupt. */
  lemma ErrorFreeExitCauses(c: Codec, acts: seq<Action>, s: State)
    requires Exec(c, START, acts) == Some(s) && s.loop.Ended? && !s.sh.hasError
    ensures s.log.cause == Some(Drained) || s.log.cause == Some(Interrupted)
            || (s.log.cause == Some(ConnectionClosed) && s.sh.closeRequested)
  {
    SoundRun(c, acts, s);
    ExplainedRun(c, acts, s);
    assert s.log.cause.Some?;
    match s.log.cause.value
    case Drained =>
    case ConnectFailure =>
    case WriteFailure =>
    case ConnectionClosed =>
    case Interrupted =>
  }

  /** Nothing can be queued, written or go wrong any more. */
  predicate Frozen(s: State) {
    && !s.sh.running && s.input.Finished?
    && (s.loop.Testing? || s.loop.Ended? || (s.loop.Serving? && s.link.Down?))
  }

  predicate SameRecord(s: State, t: State) {
    t.sh.queue == s.sh.queue && t.sh.hasError == s.sh.hasError && t.log == s.log
  }

  lemma FrozenStep(c: Codec, s: State, a: Action)
    requires Frozen(s) && Step(c, s, a).Some?
    ensures Frozen(Step(c, s, a).value) && SameRecord(s, Step(c, s, a).value)
  {}

  lemma {:induction false} FrozenRun(c: Codec, s: State, acts: seq<Action>, t: State)
    requires Frozen(s) && Exec(c, s, acts) == Some(t)
    ensures Frozen(t) && SameRecord(s, t)
  {
    if acts != [] {
      var mid := Exec(c, s, acts[..|acts| - 1]).value;
      FrozenRun(c, s, acts[..|acts| - 1], mid);
      FrozenStep(c, mid, acts[|acts| - 1]);
    }
  }

  lemma FrozenRecord(c: Codec, s: State)
    requires Sound(c, s) && Frozen(s) && !s.sh.hasError
    ensures s.log.frames == s.log.accepted == Typed(c, s.log.lines) <==> s.sh.queue == []
  {
    assert s.log.accepted == s.log.frames + s.sh.queue;
    if s.log.frames == s.log.accepted {
      assert |s.sh.queue| == 0;
    }
  }

  /** The connection closes after the close was requested: however the client goes on, it ends without an
      error, and it has written every JSON line typed if and only if the queue was empty when the closing
      callback came. */
  lemma ClosingCallbackLosesExactlyTheQueue(
      c: Codec, before: seq<Action>, s: State, gone: State, after: seq<Action>, t: State)
    requires Exec(c, START, before) == Some(s) && s.sh.closeRequested && !s.sh.hasError
    requires Step(c, s, ConnectionGone) == Some(gone)
    requires Exec(c, gone, after) == Some(t) && t.loop.Ended?
    ensures !t.sh.hasError
    ensures t.log.frames == t.log.accepted == Typed(c, t.log.lines) <==> s.sh.queue == []
  {
    SoundRun(c, before, s);
    SoundLoop(c, s, ConnectionGone);
    FrozenRun(c, gone, after, t);
    FrozenRecord(c, gone);
  }

  /** The same at the locked body of a turn that finds the flag cleared, by an interrupt or otherwise, once
      nothing more is typed: what the turn's callbacks left in the queue is what is lost. */
  lemma LastBodyLosesExactlyTheQueue(
      c: Codec, before: seq<Action>, s: State, stopped: State, after: seq<Action>, t: State)
    requires Exec(c, START, before) == Some(s) && s.input.Finished? && !s.sh.running && !s.sh.hasError
    requires Step(c, s, LoopBody) == Some(stopped)
    requires Exec(c, stopped, after) == Some(t) && t.loop.Ended?
    ensures !t.sh.hasError
    ensures t.log.frames == t.log.accepted == Typed(c, t.log.lines) <==> s.sh.queue == []
  {
    SoundRun(c, before, s);
    SoundLoop(c, s, LoopBody);
    FrozenRun(c, stopped, after, t);
    FrozenRecord(c, stopped);
  }

  /** The same for an interrupt that comes between two turns of the loop, once nothing more is typed. */
  lemma InterruptLosesExactlyTheQueue(
      c: Codec, before: seq<Action>, s: State, stopped: State, after: seq<Action>, t: State)
    requires Exec(c, START, before) == Some(s) && s.input.Finished? && s.loop.Testing? && !s.sh.hasError
    requires Step(c, s, Interrupt) == Some(stopped)
    requires Exec(c, stopped, after) == Some(t) && t.loop.Ended?
    ensures !t.sh.hasError
    ensures t.log.frames == t.log.accepted == Typed(c, t.log.lines) <==> s.sh.queue == []
  {
    SoundRun(c, before, s);
    SoundLoop(c, s, Interrupt);
    FrozenRun(c, stopped, after, t);
    FrozenRecord(c, stopped);
  }

  lemma Then(c: Codec, acts: seq<Action>, s: State, a: Action) returns (acts': seq<Action>, s': State)
    requires Exec(c, START, acts) == Some(s) && Step(c, s, a).Some?
    ensures Exec(c, START, acts') == Some(s') && Step(c, s, a) == Some(s')
  {
    acts', s' := acts + [a], Step(c, s, a).value;
    assert acts'[..|acts|] == acts;
  }

  lemma TypeOneLine(c: Codec, line: string, json: Json) returns (acts: seq<Action>, s: State)
    requires line != "" && c.parse(line) == Some(json)
    ensures Exec(c, START, acts) == Some(s)
    ensures s == START.(sh := START.sh.(queue := [c.dump(json)]), input := Waking,
                        log := Log([Some(line)], [c.dump(json)], [], [], None))
  {
    acts, s := Then(c, [], START, Look);
    acts, s := Then(c, acts, s, Type(Some(line)));
    acts, s := Then(c, acts, s, Queue);
  }

  lemma AskToClose(c: Codec, before: seq<Action>, start: State) returns (acts: seq<Action>, s: State)
    requires Exec(c, START, before) == Some(start) && start.input.Waking? && start.sh.running
    ensures Exec(c, START, acts) == Some(s)
    ensures s == start.(sh := start.sh.(closeRequested := true), wakePending := true, input := Finished,
                        log := start.log.(lines := start.log.lines + [None]))
  {
    acts, s := Then(c, before, start, WakeLoop);
    acts, s := Then(c, acts, s, Look);
    acts, s := Then(c, acts, s, Type(None));
    acts, s := Then(c, acts, s, RequestClose);
  }

  /** The queue need not be empty: a connection that closes after the close was requested ends the
      client without an error and with a line unsent. */
  lemma ErrorFreeExitCanLoseLines(c: Codec, line: string, json: Json) returns (acts: seq<Action>, s: State)
    requires line != "" && c.parse(line) == Some(json)
    ensures Exec(c, START, acts) == Some(s)
    ensures s.loop.Ended? && !s.sh.hasError && s.input.Finished?
    ensures s.log.accepted == [c.dump(json)] && s.log.frames == []
  {
    acts, s := TypeOneLine(c, line, json);
    acts, s := AskToClose(c, acts, s);
    acts, s := Then(c, acts, s, TestRunning);
    acts, s := Then(c, acts, s, ConnectionGone);
    acts, s := Then(c, acts, s, LoopBody);
    acts, s := Then(c, acts, s, TestRunning);
  }

  // ---- A failed connection ends the client ------------------------------------------------

  function LoopSteps(acts: seq<Action>): nat {
    if acts == [] then 0 else LoopSteps(acts[..|acts| - 1]) + if IsLoop(acts[|acts| - 1]) then 1 else 0
  }

  /** No connection is left, and after `n` more steps of the loop that is where it is. */
  predicate Failing(s: State, n: nat) {
    && s.sh.connectFailed && s.sh.hasError && s.link.Down?
    && (n > 0 ==> !s.sh.running)
    && s.loop == (if n == 0 then Serving else if n == 1 then Testing else Ended)
    && n <= 2
  }

  lemma FailingStep(c: Codec, s: State, n: nat, a: Action)
    requires Failing(s, n) && Step(c, s, a).Some?
    ensures Failing(Step(c, s, a).value, if IsLoop(a) then n + 1 else n)
  {}

  lemma {:induction false} FailingRun(c: Codec, s: State, acts: seq<Action>, t: State)
    requires Failing(s, 0) && Exec(c, s, acts) == Some(t)
    ensures Failing(t, LoopSteps(acts))
  {
    if acts != [] {
      var mid := Exec(c, s, acts[..|acts| - 1]).value;
      FailingRun(c, s, acts[..|acts| - 1], mid);
      FailingStep(c, mid, LoopSteps(acts[..|acts| - 1]), acts[|acts| - 1]);
    }
  }

  /** A connection that fails ends the client, whatever the user and the connection do: the loop makes two
      more steps, the locked body and the test of the flag, which that body has cleared; neither can be
      prevented, and the exit is one with an error. */
  lemma FailedConnectionEndsTheLoop(c: Codec, s: State, failed: State, acts: seq<Action>, t: State)
    requires Step(c, s, ConnectionError) == Some(failed) && Exec(c, failed, acts) == Some(t)
    ensures LoopSteps(acts) <= 2 && (t.loop.Ended? <==> LoopSteps(acts) == 2) && t.sh.hasError
    ensures !t.sh.running || (LoopSteps(acts) == 0 && t.loop.Serving?)
    ensures LoopSteps(acts) == 0 ==> Step(c, t, LoopBody).Some?
    ensures LoopSteps(acts) == 1 ==> Step(c, t, TestRunning).Some?
  {
    FailingRun(c, failed, acts, t);
  }

  /** The locked body stops the loop once the connection has failed. */
  predicate Halted(s: State) {
    && (s.sh.connectFailed && (s.loop.Testing? || s.loop.Ended?) ==> !s.sh.running)
    && (s.sh.connectFailed ==> s.sh.hasError)
  }

  lemma HaltedStep(c: Codec, s: State, a: Action)
    requires Halted(s) && Step(c, s, a).Some?
    ensures Halted(Step(c, s, a).value)
  {}

  lemma {:induction false} HaltedRun(c: Codec, acts: seq<Action>, s: State)
    requires Exec(c, START, acts) == Some(s)
    ensures Halted(s)
  {
    if acts != [] {
      var before := Exec(c, START, acts[..|acts| - 1]).value;
      HaltedRun(c, acts[..|acts| - 1], before);
      HaltedStep(c, before, acts[|acts| - 1]);
    }
  }

  // ---- No line waits for nothing, no turn is asked for nothing ------------------------------

  /** A turn to write is asked for only with a line to send; and a line that can be sent is being attended to. */
  predicate Attended(s: State) {
    && (s.writable ==> s.sh.queue != [] && s.sh.publishing)
    && (s.link.Up? && s.sh.queue != [] ==>
          s.writable || s.wakePending || s.input.Waking? || s.loop.Sending? || s.loop.Sent?)
  }

  lemma AttendedStep(c: Codec, s: State, a: Action)
    requires Attended(s) && Explained(s) && Orderly(s) && Step(c, s, a).Some?
    ensures Attended(Step(c, s, a).value)
  {}

  /** In every reachable state a queued line of a working connection has a turn to write asked for, or a
      wake-up that will ask, or a send under way that will; and no turn is asked for without a line. */
  lemma {:induction false} NoLineIsForgotten(c: Codec, acts: seq<Action>, s: State)
    requires Exec(c, START, acts) == Some(s)
    ensures s.writable ==> s.sh.queue != [] && s.sh.publishing
    ensures s.link.Up? && s.sh.queue != [] ==>
              s.writable || s.wakePending || s.input.Waking? || s.loop.Sending? || s.loop.Sent?
  {
    if acts != [] {
      var before := Exec(c, START, acts[..|acts| - 1]).value;
      NoLineIsForgotten(c, acts[..|acts| - 1], before);
      ExplainedRun(c, acts[..|acts| - 1], before);
      SoundRun(c, acts[..|acts| - 1], before);
      AttendedStep(c, before, acts[|acts| - 1]);
    }
  }

  // ---- When the input thread stops ------------------------------------------------------------

  /** The end of input or an empty line. */
  predicate EndsInput(line: Option<string>) {
    line.None? || line.value == ""
  }

  /** The last line, and only that, ends the input if the close is asked for or about to be. */
  predicate InputTold(s: State) {
    && (forall i :: 0 <= i < |s.log.lines| - 1 ==> !EndsInput(s.log.lines[i]))
    && (s.sh.closeRequested || s.input.Closing? <==> s.log.lines != [] && EndsInput(s.log.lines[|s.log.lines| - 1]))
    && (s.sh.closeRequested ==> s.input.Finished?)
    && (s.input.Finished? && !s.sh.closeRequested ==> !s.sh.running)
  }

  lemma InputToldStep(c: Codec, s: State, a: Action)
    requires InputTold(s) && Step(c, s, a).Some?
    ensures InputTold(Step(c, s, a).value)
  {}

  /** The close is asked for exactly by an empty line or the end of input, which is the last thing typed; a
      thread that finished without one found the running flag cleared. */
  lemma {:induction false} CloseIsAskedByTheLastLine(c: Codec, acts: seq<Action>, s: State)
    requires Exec(c, START, acts) == Some(s)
    ensures InputTold(s)
  {
    if acts != [] {
      var before := Exec(c, START, acts[..|acts| - 1]).value;
      CloseIsAskedByTheLastLine(c, acts[..|acts| - 1], before);
      InputToldStep(c, before, acts[|acts| - 1]);
    }
  }

  function ReadsOne(input: InputPc): nat {
    if input.Reading? then 1 else 0
  }

  predicate TakesNoMore(s: State, t: State) {
    !t.sh.running && s.log.lines <= t.log.lines && |t.log.lines| + ReadsOne(t.input) <= |s.log.lines| + ReadsOne(s.input)
  }

  lemma TakesNoMoreStep(c: Codec, s: State, m: State, a: Action)
    requires TakesNoMore(s, m) && Step(c, m, a).Some?
    ensures TakesNoMore(s, Step(c, m, a).value)
  {}

  /** Once the running flag is cleared it stays so, and the input thread takes no more lines, but for one
      that it already waits for. */
  lemma {:induction false} StoppedInputTakesNoMore(c: Codec, s: State, acts: seq<Action>, t: State)
    requires !s.sh.running && Exec(c, s, acts) == Some(t)
    ensures TakesNoMore(s, t)
  {
    if acts != [] {
      var mid := Exec(c, s, acts[..|acts| - 1]).value;
      StoppedInputTakesNoMore(c, s, acts[..|acts| - 1], mid);
      TakesNoMoreStep(c, s, mid, acts[|acts| - 1]);
    }
  }

  // ---- A requested close comes to its end -----------------------------------------------

  /** The service loop's steps while the connection works and writes succeed. */
  predicate IsSmooth(a: Action) {
    a.TestRunning? || a.Writeable? || (a.SendDone? && a.ok) || a.AfterSend? || a.LoopBody?
  }

  /** A count of a run's steps: tests of the flag, locked bodies (one each turn), the rest; and turns at
      whose start a write was asked for and in which the library granted none. `asked` and `served` are
      about the turn under way. */
  datatype Tally = Tally(tests: nat, bodies: nat, rest: nat, missed: nat, asked: bool, served: bool)

  function Count(n: Tally, s: State, a: Action): Tally {
    match a
    case TestRunning => n.(tests := n.tests + 1, asked := s.writable && s.sh.queue != [], served := false)
    case LoopBody => n.(bodies := n.bodies + 1, missed := n.missed + if n.asked && !n.served then 1 else 0)
    case Writeable => n.(rest := n.rest + 1, served := n.served || s.sh.queue != [])
    case _ => n.(rest := n.rest + 1)
  }

  function TallyOf(c: Codec, s: State, acts: seq<Action>): Tally
    requires Exec(c, s, acts).Some?
  {
    if acts == [] then Tally(0, 0, 0, 0, false, false)
    else
      var before := acts[..|acts| - 1];
      Count(TallyOf(c, s, before), Exec(c, s, before).value, acts[|acts| - 1])
  }

  /** The close was requested, and the connection works. */
  predicate Finishing(s: State) {
    && s.sh.closeRequested && s.input.Finished? && s.link.Up? && s.sh.publishing && !s.sh.connectFailed
    && (s.sh.running || (s.sh.queue == [] && s.log.cause == Some(Drained) && (s.loop.Testing? || s.loop.Ended?)))
    && (s.loop.Ended? ==> !s.sh.running)
  }

  /** Turns still needed at most, seen between two turns. */
  function TurnsLeft(s: State): nat {
    |s.sh.queue| + (if s.sh.queue != [] && !s.writable then 1 else 0) + (if s.sh.running then 1 else 0)
  }

  function TurnsLeftWithin(s: State, n: Tally): nat {
    if n.served && !s.loop.Testing? && !s.loop.Ended? then |s.sh.queue| + 2 else TurnsLeft(s)
  }

  function StepsLeft(s: State): nat {
    3 * |s.sh.queue| + (if s.loop.Sending? then 3 else if s.loop.Sent? then 2 else 0) + (if s.writable then 1 else 0)
  }

  /** How far a run from `start` has come. */
  predicate OnTrack(start: State, s: State, n: Tally) {
    && Finishing(s) && s.sh.hasError == start.sh.hasError
    && (s.loop.Sending? || s.loop.Sent? ==> n.served)
    && (s.loop.Serving? && !n.served && !n.asked ==> s.sh.queue == [] || !s.writable)
    && n.bodies + TurnsLeftWithin(s, n) <= TurnsLeft(start) + n.missed
    && n.rest + StepsLeft(s) <= StepsLeft(start) + n.bodies
    && n.tests == n.bodies + if s.loop.Testing? then 0 else 1
  }

  lemma OnTrackStep(c: Codec, start: State, s: State, n: Tally, a: Action)
    requires OnTrack(start, s, n) && IsSmooth(a) && Step(c, s, a).Some?
    ensures OnTrack(start, Step(c, s, a).value, Count(n, s, a))
  {}

  lemma {:induction false} OnTrackRun(c: Codec, start: State, acts: seq<Action>, s: State)
    requires Finishing(start) && start.loop.Testing? && Exec(c, start, acts) == Some(s)
    requires forall i :: 0 <= i < |acts| ==> IsSmooth(acts[i])
    ensures OnTrack(start, s, TallyOf(c, start, acts))
  {
    if acts != [] {
      var before := acts[..|acts| - 1];
      var mid := Exec(c, start, before).value;
      OnTrackRun(c, start, before, mid);
      OnTrackStep(c, start, mid, TallyOf(c, start, before), acts[|acts| - 1]);
    }
  }

  lemma {:induction false} TallyCountsSteps(c: Codec, s: State, acts: seq<Action>)
    requires Exec(c, s, acts).Some?
    ensures var n := TallyOf(c, s, acts); |acts| == n.tests + n.bodies + n.rest
  {
    if acts != [] {
      TallyCountsSteps(c, s, acts[..|acts| - 1]);
    }
  }

  lemma SmoothEnabled(c: Codec, s: State) returns (a: Action)
    requires !s.loop.Ended?
    ensures IsSmooth(a) && Step(c, s, a).Some?
  {
    match s.loop
    case Testing => a := TestRunning;
    case Serving => a := LoopBody;
    case Sending(_) => a := SendDone(true);
    case Sent => a := AfterSend;
  }

  /** A close was requested, the connection works and writes succeed. Then the loop takes at most two turns
      more than there are frames queued, not counting turns in which the library denies a write that was
      asked for; the steps in them are bounded too. It can only stop by ending, and then it ends without an
      error with every JSON line written. */
  lemma RequestedCloseDrains(c: Codec, before: seq<Action>, s: State, acts: seq<Action>, t: State)
    requires Exec(c, START, before) == Some(s)
    requires s.loop.Testing? && s.sh.closeRequested && s.sh.running && s.link.Up?
    requires Exec(c, s, acts) == Some(t) && forall i :: 0 <= i < |acts| ==> IsSmooth(acts[i])
    ensures var n := TallyOf(c, s, acts);
            && n.bodies <= |s.sh.queue| + 2 + n.missed
            && |acts| <= 3 * n.bodies + 3 * |s.sh.queue| + 2
    ensures !t.loop.Ended? ==> exists a :: IsSmooth(a) && Step(c, t, a).Some?
    ensures t.loop.Ended? ==>
              && t.log.cause == Some(Drained) && !t.sh.hasError
              && t.log.frames == t.log.accepted == Typed(c, t.log.lines)
  {
    SoundRun(c, before, s);
    ExplainedRun(c, before, s);
    OnTrackRun(c, s, acts, t);
    TallyCountsSteps(c, s, acts);
    if t.loop.Ended? {
      ExecChain(c, START, before, s, acts);
      CleanExitDrains(c, before + acts, t);
    } else {
      var a := SmoothEnabled(c, t);
    }
  }

  // ---- The client's own methods ----------------------------------------------------------

  lemma ExecThen(c: Codec, s: State, acts: seq<Action>, mid: State, a: Action)
    requires Exec(c, s, acts) == Some(mid)
    ensures Exec(c, s, acts + [a]) == Step(c, mid, a)
  {
    assert (acts + [a])[..|acts|] == acts;
  }

  lemma {:induction false} ExecChain(c: Codec, s: State, a: seq<Action>, mid: State, b: seq<Action>)
    requires Exec(c, s, a) == Some(mid)
    ensures Exec(c, s, a + b) == Exec(c, mid, b)
  {
    if b == [] {
      assert a + b == a;
    } else {
      assert (a + b)[..|a + b| - 1] == a + b[..|b| - 1];
      ExecChain(c, s, a, mid, b[..|b| - 1]);
    }
  }

  /** No step of the other thread moves the input thread. */
  lemma {:induction false} LoopKeepsInput(c: Codec, s: State, acts: seq<Action>, t: State)
    requires Exec(c, s, acts) == Some(t)
    requires forall i :: 0 <= i < |acts| ==> !IsInput(acts[i])
    ensures t.input == s.input && t.log.lines == s.log.lines
  {
    if acts != [] {
      var mid := Exec(c, s, acts[..|acts| - 1]).value;
      LoopKeepsInput(c, s, acts[..|acts| - 1], mid);
    }
  }

  predicate SameLoop(s: State, t: State) {
    && t.loop == s.loop && t.link == s.link && t.writable == s.writable
    && t.log.frames == s.log.frames && t.sh.hasError == s.sh.hasError
  }

  lemma OtherStepKeepsLoop(c: Codec, s: State, a: Action)
    requires !IsLoop(a) && Step(c, s, a).Some?
    ensures SameLoop(s, Step(c, s, a).value)
  {}

  /** No step of the input thread, and no interrupt, moves the service loop or the connection. */
  lemma {:induction false} OthersKeepLoop(c: Codec, s: State, acts: seq<Action>, t: State)
    requires Exec(c, s, acts) == Some(t)
    requires forall i :: 0 <= i < |acts| ==> !IsLoop(acts[i])
    ensures SameLoop(s, t)
  {
    if acts != [] {
      var mid := Exec(c, s, acts[..|acts| - 1]).value;
      OthersKeepLoop(c, s, acts[..|acts| - 1], mid);
      OtherStepKeepsLoop(c, mid, acts[|acts| - 1]);
    }
  }

  /** What `lws_service` may call back with: a turn to write, of which it takes `count` bytes; a failed
      connection; or the end of one. */
  datatype Callback = WriteTurn(count: int) | ConnectFails | Closes

  class WsClient {
    const codec: Codec
    var queue: seq<string>
    var connectFailed: bool
    var closeRequested: bool
    var hasError: bool
    var publishing: bool
    var running: bool

    var writable: bool
    var wakePending: bool
    var link: Link
    ghost var loop: LoopPc
    ghost var input: InputPc
    ghost var log: Log

    ghost function World(): State
      reads this
    {
      State(Shared(queue, connectFailed, closeRequested, hasError, publishing, running),
            link, writable, wakePending, loop, input, log)
    }

    constructor (codec: Codec)
      ensures World() == START && this.codec == codec
    {
      this.codec := codec;
      queue, connectFailed, closeRequested, hasError, publishing, running := [], false, false, false, true, true;
      writable, wakePending := false, false;
      link, loop, input, log := Up, Testing, Looking, START.log;
    }

    /** The body of the service loop, under the lock. */
    method RunLoopBody()
      requires loop.Serving?
      modifies this
      ensures Step(codec, old(World()), LoopBody) == Some(World()) && loop.Testing?
      ensures running <==> old(running) && !connectFailed && !(closeRequested && queue == [])
      ensures writable <==> old(writable) || (publishing && queue != [])
    {
      ghost var was := running;
      if connectFailed {
        running := false;
      }
      if publishing && queue != [] {
        writable := true;
      }
      if closeRequested && queue == [] {
        running := false;
      }
      log := if running then log else Stop(log, was, if connectFailed then ConnectFailure else Drained);
      wakePending, loop := false, Testing;
    }

    /** The first critical section of a writeable callback: unlike the server, it takes the frame out of
        the queue before it is sent. */
    method TakeForWrite() returns (payload: Option<string>)
      requires loop.Serving? && writable && link.Up?
      modifies this
      ensures Step(codec, old(World()), Writeable) == Some(World())
      ensures payload.None? ==> loop.Serving?
      ensures payload.Some? ==> loop == Sending(payload.value)
      ensures old(queue) == (if payload.None? then [] else [payload.value]) + queue && (payload.None? ==> queue == [])
    {
      writable := false;
      if queue == [] {
        return None;
      }
      payload := Some(queue[0]);
      queue := queue[1..];
      loop := Sending(payload.value);
    }

    /** `count`: how much of the frame the library took. */
    method SendFrame(payload: string, count: int) returns (rc: int)
      requires loop == Sending(payload)
      modifies this
      ensures Step(codec, old(World()), SendDone(count >= |payload|)) == Some(World())
      ensures rc == if count >= |payload| then 0 else -1
      ensures loop == if rc == 0 then Sent else Serving
      ensures rc != 0 ==> hasError && !running
      ensures rc == 0 ==> hasError == old(hasError) && running == old(running) && log.frames == old(log.frames) + [payload]
    {
      if count < |payload| {
        log := Stop(log.(lost := log.lost + [payload]), running, WriteFailure);
        link, loop := Broken, Serving;
        hasError := true;
        running := false;
        return -1;
      }
      log := log.(frames := log.frames + [payload]);
      loop := Sent;
      rc := 0;
    }

    method AskAgain()
      requires loop.Sent?
      modifies this
      ensures Step(codec, old(World()), AfterSend) == Some(World()) && loop.Serving?
      ensures writable <==> old(writable) || queue != []
    {
      if queue != [] {
        writable := true;
      }
      loop := Serving;
    }

    method OnClosed()
      requires loop.Serving? && !link.Down?
      modifies this
      ensures Step(codec, old(World()), ConnectionGone) == Some(World()) && loop.Serving?
      ensures hasError <==> old(hasError) || (old(running) && !closeRequested)
      ensures !running && !publishing && queue == old(queue)
    {
      log := Stop(log, running, ConnectionClosed);
      link, writable := Down, false;
      publishing := false;
      if running && !closeRequested {
        hasError := true;
      }
      running := false;
    }

    method OnConnectionError()
      requires loop.Serving? && link.Up?
      modifies this
      ensures Step(codec, old(World()), ConnectionError) == Some(World()) && loop.Serving?
      ensures connectFailed && hasError && queue == old(queue)
    {
      connectFailed := true;
      hasError := true;
      link := Down;
    }

    method LookAtFlag() returns (go: bool)
      requires loop.Testing?
      modifies this`loop
      ensures Step(codec, old(World()), TestRunning) == Some(World())
      ensures loop == (if go then Serving else Ended) && go == running
    {
      go := running;
      loop := if go then Serving else Ended;
    }

    /** The input thread, or an interrupt, may run here. */
    method YieldToInput() returns (ghost acts: seq<Action>)
      modifies this
      ensures Exec(codec, old(World()), acts) == Some(World())
      ensures forall i :: 0 <= i < |acts| ==> !IsLoop(acts[i])
      ensures loop == old(loop) && link == old(link) && writable == old(writable) && hasError == old(hasError)
    {
      acts := [];
      OthersKeepLoop(codec, World(), acts, World());
    }

    /** A writeable callback from where the frame is taken, with the input thread let in where the lock is
        free. */
    method FinishWrite(payload: string, count: int, ghost s0: State, ghost before: seq<Action>)
        returns (ghost acts: seq<Action>)
      requires loop == Sending(payload) && Exec(codec, s0, before) == Some(World())
      modifies this
      ensures Exec(codec, s0, acts) == Some(World()) && loop.Serving?
    {
      ghost var s1 := World();
      ghost var more := YieldToInput();
      ExecChain(codec, s0, before, s1, more);
      acts := before + more;
      ghost var s2 := World();
      var rc := SendFrame(payload, count);
      ExecThen(codec, s0, acts, s2, SendDone(count >= |payload|));
      acts := acts + [SendDone(count >= |payload|)];
      if rc == 0 {
        ghost var s3 := World();
        more := YieldToInput();
        ExecChain(codec, s0, acts, s3, more);
        acts := acts + more;
        ghost var s4 := World();
        AskAgain();
        ExecThen(codec, s0, acts, s4, AfterSend);
        acts := acts + [AfterSend];
      }
    }

    method ServeWriteable(count: int) returns (ghost acts: seq<Action>)
      requires loop.Serving? && writable && link.Up?
      modifies this
      ensures Exec(codec, old(World()), acts) == Some(World()) && loop.Serving?
    {
      ghost var s0 := World();
      var payload := TakeForWrite();
      ExecThen(codec, s0, [], s0, Writeable);
      acts := [Writeable];
      if payload.Some? {
        ghost var rest := FinishWrite(payload.value, count, s0, acts);
        acts := rest;
      }
    }

    /** One callback, unless the library does not make it: it gives turns to write only on request and on
        an open connection, and nothing after the end. */
    method ServeCallback(callback: Callback) returns (ghost acts: seq<Action>)
      requires loop.Serving?
      modifies this
      ensures Exec(codec, old(World()), acts) == Some(World()) && loop.Serving?
    {
      ghost var s0 := World();
      acts := [];
      match callback
      case WriteTurn(count) =>
        if writable && link.Up? {
          acts := ServeWriteable(count);
        }
      case ConnectFails =>
        if link.Up? {
          OnConnectionError();
          ExecThen(codec, s0, [], s0, ConnectionError);
          acts := [ConnectionError];
        }
      case Closes =>
        if !link.Down? {
          OnClosed();
          ExecThen(codec, s0, [], s0, ConnectionGone);
          acts := [ConnectionGone];
        }
    }

    /** `lws_service` and the locked body after it. */
    method ServeTurn(callbacks: seq<Callback>) returns (ghost acts: seq<Action>)
      requires loop.Serving?
      modifies this
      ensures Exec(codec, old(World()), acts) == Some(World()) && loop.Testing?
    {
      ghost var s0 := World();
      acts := YieldToInput();
      for i := 0 to |callbacks|
        invariant Exec(codec, s0, acts) == Some(World()) && loop.Serving?
      {
        ghost var s1 := World();
        ghost var more := ServeCallback(callbacks[i]);
        ExecChain(codec, s0, acts, s1, more);
        acts := acts + more;
        ghost var s2 := World();
        more := YieldToInput();
        ExecChain(codec, s0, acts, s2, more);
        acts := acts + more;
      }
      ghost var s3 := World();
      RunLoopBody();
      ExecThen(codec, s0, acts, s3, LoopBody);
      acts := acts + [LoopBody];
    }

    /** The service loop, with the input thread let in everywhere, for as many turns as the outside is
        known; then the exit code. A run from the start that the drained queue ended has sent every line. */
    method RunLoop(turns: seq<seq<Callback>>) returns (rc: nat, ghost acts: seq<Action>)
      requires World() == START
      modifies this
      ensures Exec(codec, START, acts) == Some(World()) && (loop.Ended? || loop.Testing?)
      ensures rc == (if hasError then 1 else 0) && (connectFailed ==> !running && rc != 0)
      ensures log.cause == Some(Drained) ==> log.frames == log.accepted == Typed(codec, log.lines)
      ensures loop.Ended? && rc == 0 ==>
                log.cause == Some(Drained) || log.cause == Some(Interrupted)
                || (log.cause == Some(ConnectionClosed) && closeRequested)
    {
      ghost var more;
      acts := YieldToInput();
      var turn, going := 0, true;
      while going && turn < |turns|
        invariant turn <= |turns| && Exec(codec, START, acts) == Some(World())
        invariant loop == if going then Testing else Ended
      {
        ghost var s1 := World();
        going := LookAtFlag();
        ExecThen(codec, START, acts, s1, TestRunning);
        acts := acts + [TestRunning];
        if going {
          ghost var s2 := World();
          more := ServeTurn(turns[turn]);
          ExecChain(codec, START, acts, s2, more);
          acts := acts + more;
        }
        ghost var s3 := World();
        more := YieldToInput();
        ExecChain(codec, START, acts, s3, more);
        acts := acts + more;
        turn := turn + 1;
      }
      rc := if hasError then 1 else 0;
      HaltedRun(codec, acts, World());
      if log.cause == Some(Drained) {
        CleanExitDrains(codec, acts, World());
      }
      if loop.Ended? && !hasError {
        ErrorFreeExitCauses(codec, acts, World());
      }
    }

    /** The service loop, or an interrupt, may run here. */
    method Yield() returns (ghost acts: seq<Action>)
      modifies this
      ensures Exec(codec, old(World()), acts) == Some(World())
      ensures forall i :: 0 <= i < |acts| ==> !IsInput(acts[i])
      ensures input == old(input) && log.lines == old(log.lines)
    {
      acts := [];
      LoopKeepsInput(codec, World(), acts, World());
    }

    method LookAtRunning() returns (go: bool)
      requires input.Looking?
      modifies this`input
      ensures Step(codec, old(World()), Look) == Some(World())
      ensures input == (if go then Reading else Finished) && go == running
    {
      go := running;
      input := if go then Reading else Finished;
    }

    /** `next`: what the user typed; an empty line and the end of input both ask for the close. */
    method ReadLine(next: Option<string>)
      requires input.Reading?
      modifies this`input, this`log
      ensures Step(codec, old(World()), Type(next)) == Some(World())
      ensures log.lines == old(log.lines) + [next]
      ensures input == if next.None? || next.value == "" then Closing
                       else match codec.parse(next.value)
                            case None => Looking
                            case Some(json) => Queueing(codec.dump(json))
    {
      log := log.(lines := log.lines + [next]);
      if next.None? || next.value == "" {
        input := Closing;
      } else {
        match codec.parse(next.value)
        case None => input := Looking;
        case Some(json) => input := Queueing(codec.dump(json));
      }
    }

    method LookAndRead(next: Option<string>) returns (go: bool, ghost acts: seq<Action>)
      requires input.Looking?
      modifies this
      ensures Exec(codec, old(World()), acts) == Some(World())
      ensures go ==> log.lines == old(log.lines) + [next]
      ensures !go ==> input.Finished? && log.lines == old(log.lines)
      ensures go ==> input == if next.None? || next.value == "" then Closing
                              else match codec.parse(next.value)
                                   case None => Looking
                                   case Some(json) => Queueing(codec.dump(json))
    {
      ghost var s0 := World();
      go := LookAtRunning();
      ExecThen(codec, s0, [], s0, Look);
      acts := [Look];
      if go {
        ghost var s1 := World();
        ghost var more := Yield();
        ExecChain(codec, s0, acts, s1, more);
        acts := acts + more;
        ghost var s2 := World();
        ReadLine(next);
        ExecThen(codec, s0, acts, s2, Type(next));
        acts := acts + [Type(next)];
      }
    }

    method PushLine(normalized: string)
      requires input == Queueing(normalized)
      modifies this
      ensures Step(codec, old(World()), Queue) == Some(World())
      ensures input.Waking? && log.lines == old(log.lines)
    {
      queue := queue + [normalized];
      log, input := log.(accepted := log.accepted + [normalized]), Waking;
    }

    method CancelService()
      requires input.Waking?
      modifies this
      ensures Step(codec, old(World()), WakeLoop) == Some(World())
      ensures input.Looking? && log.lines == old(log.lines)
    {
      wakePending, input := true, Looking;
    }

    method AskForClose()
      requires input.Closing?
      modifies this
      ensures Step(codec, old(World()), RequestClose) == Some(World())
      ensures input.Finished? && log.lines == old(log.lines)
    {
      closeRequested, input := true, Finished;
    }

    method Enqueue(normalized: string) returns (ghost acts: seq<Action>)
      requires input == Queueing(normalized)
      modifies this
      ensures Exec(codec, old(World()), acts) == Some(World())
      ensures input.Looking? && log.lines == old(log.lines)
    {
      ghost var s0 := World();
      PushLine(normalized);
      ExecThen(codec, s0, [], s0, Queue);
      ghost var s1 := World();
      ghost var more := Yield();
      ExecChain(codec, s0, [Queue], s1, more);
      acts := [Queue] + more;
      ghost var s2 := World();
      CancelService();
      ExecThen(codec, s0, acts, s2, WakeLoop);
      acts := acts + [WakeLoop];
    }

    /** One turn of the input loop, with the service loop let in before each of its steps. */
    method TakeLine(line: Option<string>) returns (again: bool, ghost acts: seq<Action>)
      requires input.Looking?
      modifies this
      ensures Exec(codec, old(World()), acts) == Some(World())
      ensures input == if again then Looking else Finished
      ensures log.lines == old(log.lines) || log.lines == old(log.lines) + [line]
      ensures again ==> log.lines == old(log.lines) + [line] && line.Some? && line.value != ""
    {
      ghost var s0 := World();
      again, acts := LookAndRead(line);
      if again {
        ghost var s1 := World();
        ghost var more := Yield();
        ExecChain(codec, s0, acts, s1, more);
        acts := acts + more;
        s1 := World();
        if line.None? || line.value == "" {
          AskForClose();
          ExecThen(codec, s0, acts, s1, RequestClose);
          acts := acts + [RequestClose];
          again := false;
        } else {
          match codec.parse(line.value)
          case None =>
          case Some(json) =>
            more := Enqueue(codec.dump(json));
            ExecChain(codec, s0, acts, s1, more);
            acts := acts + more;
        }
      }
    }

    /** The input thread over all the user will type, with the service loop let in everywhere: a run
        that ends the thread, having taken lines in order, up to the first empty line or the end. */
    method InputLoop(script: seq<Option<string>>) returns (ghost acts: seq<Action>)
      requires input.Looking? && log.lines == []
      modifies this
      ensures Exec(codec, old(World()), acts) == Some(World()) && input.Finished?
      ensures log.lines <= script + [None]
    {
      ghost var s0 := World();
      var next, again := 0, true;
      acts := [];
      while again
        invariant Exec(codec, s0, acts) == Some(World()) && next <= |script|
        invariant again ==> input.Looking? && log.lines == script[..next]
        invariant !again ==> input.Finished? && log.lines <= script + [None]
        decreases |script| - next, again
      {
        ghost var s1, more := World(), [];
        more := Yield();
        ExecChain(codec, s0, acts, s1, more);
        acts := acts + more;
        var line := if next == |script| then None else script[next];
        ghost var s2 := World();
        again, more := TakeLine(line);
        ExecChain(codec, s0, acts, s2, more);
        acts := acts + more;
        assert script[..next] + [line] <= script + [None];
        if again {
          next := next + 1;
        }
      }
    }
  }
}
