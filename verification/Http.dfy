/** The HTTP side: each connection's body goes out chunk by chunk, one per writeable callback. */
module Http {
  import opened Common

  type Byte = b: int | 0 <= b < 256
  type Conn = nat

  const CHUNK_SIZE := 16 * 1024

  datatype HttpFields = HttpState(asset: Option<seq<Byte>>, offset: nat)

  /** That the offset never passes the size is part of the type: every assignment is checked for it. */
  type HttpState = s: HttpFields | s.asset.Some? ==> s.offset <= |s.asset.value| witness HttpState(None, 0)

  datatype Chunk = Chunk(data: seq<Byte>, last: bool)

  /** What a request resolves to: a body, no path, or a path without an asset. */
  datatype Answer = Found(body: seq<Byte>) | Unresolved | NoAsset

  /** The transport's own fields. */
  datatype Shared = Shared(sessions: map<Conn, HttpState>, healthy: bool)

  /** What a callback does: the new fields, its return code, whether it asks for a turn to write, the
      chunk it wrote in full, and whether it completed a transaction. */
  datatype Outcome = Outcome(shared: Shared, rc: int, wants: bool, wrote: Option<Chunk>, completed: bool)

  function Opened(sh: Shared, c: Conn): HttpState {
    if c in sh.sessions then sh.sessions[c] else HttpState(None, 0)
  }

  function SetSession(sh: Shared, c: Conn, state: HttpState): Shared {
    sh.(sessions := sh.sessions[c := state])
  }

  function OnRequest(enabled: bool, sh: Shared, c: Conn, answer: Answer, headersOk: bool): Outcome {
    if !enabled then Outcome(sh, 1, false, None, false)
    else
      var state := Opened(sh, c);
      match answer
      case Unresolved => Outcome(SetSession(sh, c, state), -1, false, None, false)
      case NoAsset => Outcome(SetSession(sh, c, state.(asset := None)), -1, false, None, false)
      case Found(body) =>
        var after := SetSession(sh, c, HttpState(Some(body), 0));
        if headersOk then Outcome(after, 0, true, None, false) else Outcome(after, 1, false, None, false)
  }

  function Min(a: nat, b: nat): nat { if a < b then a else b }

  /** `took`: the result of `lws_write`; `kept`: whether the connection outlives the transaction. */
  function OnWriteable(sh: Shared, c: Conn, took: int, kept: bool): Outcome {
    if c !in sh.sessions || sh.sessions[c].asset.None? then Outcome(sh, -1, false, None, false)
    else
      var body, offset := sh.sessions[c].asset.value, sh.sessions[c].offset;
      var remaining := |body| - offset;
      var finished := Outcome(SetSession(sh, c, HttpState(None, 0)), if kept then 0 else -1, false, None, true);
      if remaining == 0 then finished
      else
        var size := Min(remaining, CHUNK_SIZE);
        if took != size then Outcome(sh.(healthy := false), -1, false, None, false)
        else
          var chunk := Chunk(body[offset..offset + size], remaining <= size);
          if offset + size < |body| then
            Outcome(SetSession(sh, c, HttpState(Some(body), offset + size)), 0, true, Some(chunk), false)
          else finished.(wrote := Some(chunk))
  }

  /** What a turn to write answers: how the connection's state was and is, what the library took of the chunk,
      whether it keeps the connection, the return code and the chunk, how the transport's health was and is, and
      whether another turn is asked for. */
  predicate Answers(
      before: HttpState, after: HttpState, took: int, kept: bool, rc: int, wrote: Option<Chunk>, was: bool, healthy: bool,
      again: bool)
    requires before.asset.Some?
  {
    var body, offset := before.asset.value, before.offset;
    var left := |body| - offset;
    if left > 0 && took != (if left < 16384 then left else 16384) then
      rc == -1 && wrote.None? && !again && after == before && !healthy
    else
      && healthy == was
      && wrote == (if left > 0 then Some(Chunk(body[offset..offset + took], left <= 16384)) else None)
      && if left > 16384 then
           rc == 0 && again && after.asset == before.asset && after.offset == offset + took
         else
           rc == (if kept then 0 else -1) && !again && after.asset.None? && after.offset == 0
  }

  function OnGone(sh: Shared, c: Conn): Shared {
    sh.(sessions := sh.sessions - {c})
  }

  // ---- The handler -------------------------------------------------------------

  class HttpHandler {
    const enabled: bool
    var sessions: map<Conn, HttpState>
    var healthy: bool
    var writable: set<Conn>

    ghost function View(): Shared
      reads this
    {
      Shared(sessions, healthy)
    }

    constructor (enabled: bool)
      ensures View() == Shared(map[], true) && writable == {} && this.enabled == enabled
    {
      this.enabled := enabled;
      sessions, healthy, writable := map[], true, {};
    }

    method EnsureState(c: Conn)
      modifies this`sessions
      ensures sessions == old(sessions)[c := Opened(old(View()), c)]
    {
      if c !in sessions {
        sessions := sessions[c := HttpState(None, 0)];
      }
    }

    method HandleRequest(c: Conn, answer: Answer, headersOk: bool) returns (rc: int)
      modifies this
      ensures var o := OnRequest(enabled, old(View()), c, answer, headersOk);
              View() == o.shared && rc == o.rc && writable == old(writable) + if o.wants then {c} else {}
      ensures rc == if enabled && answer.Found? && headersOk then 0 else if enabled && !answer.Found? then -1 else 1
      ensures writable == if rc == 0 then old(writable) + {c} else old(writable)
      ensures healthy == old(healthy) && forall d :: d in old(sessions) && d != c ==> d in sessions && sessions[d] == old(sessions)[d]
      ensures enabled && answer.Found? ==> c in sessions && sessions[c].asset == Some(answer.body) && sessions[c].offset == 0
      ensures enabled && answer.NoAsset? ==> c in sessions && sessions[c].asset.None?
      ensures !enabled ==> sessions == old(sessions)
      ensures enabled && answer.Unresolved? ==>
                c in sessions && sessions[c] == if c in old(sessions) then old(sessions)[c] else HttpState(None, 0)
    {
      if !enabled {
        return 1;
      }
      EnsureState(c);
      match answer
      case Unresolved =>
        return -1;
      case NoAsset =>
        sessions := sessions[c := sessions[c].(asset := None)];
        return -1;
      case Found(body) =>
        sessions := sessions[c := HttpState(Some(body), 0)];
        if !headersOk {
          return 1;
        }
        writable := writable + {c};
        return 0;
    }

    method HandleWriteable(c: Conn, took: int, kept: bool) returns (rc: int, wrote: Option<Chunk>)
      modifies this
      ensures var o := OnWriteable(old(View()), c, took, kept);
              View() == o.shared && rc == o.rc && wrote == o.wrote
              && writable == (old(writable) - {c}) + if o.wants then {c} else {}
      ensures c !in old(sessions) || old(sessions)[c].asset.None? ==>
                rc == -1 && wrote.None? && sessions == old(sessions) && healthy == old(healthy)
      ensures c in old(sessions) && old(sessions)[c].asset.Some? ==>
                c in sessions && Answers(old(sessions)[c], sessions[c], took, kept, rc, wrote, old(healthy), healthy, c in writable)
    {
      wrote := None;
      writable := writable - {c};
      if c !in sessions || sessions[c].asset.None? {
        return -1, wrote;
      }
      var body := sessions[c].asset.value;
      var remaining := |body| - sessions[c].offset;
      if remaining == 0 {
        sessions := sessions[c := HttpState(None, 0)];
        return if kept then 0 else -1, wrote;
      }
      var size := Min(remaining, CHUNK_SIZE);
      var last := !(remaining > size);
      if took < 0 || took != size {
        healthy := false;
        return -1, wrote;
      }
      var offset := sessions[c].offset;
      wrote := Some(Chunk(body[offset..offset + size], last));
      sessions := sessions[c := sessions[c].(offset := offset + size)];
      if sessions[c].offset < |body| {
        writable := writable + {c};
        return 0, wrote;
      }
      sessions := sessions[c := HttpState(None, 0)];
      rc := if kept then 0 else -1;
    }

    method HandleGone(c: Conn)
      modifies this
      ensures View() == OnGone(old(View()), c) && writable == old(writable)
      ensures c !in sessions && healthy == old(healthy)
      ensures forall d :: d in old(sessions) && d != c ==> d in sessions && sessions[d] == old(sessions)[d]
    {
      sessions := sessions - {c};
    }
  }

  // ---- Whole runs ----------------------------------------------------------------

  /** A response whose headers went out: `body` is what they announced the length of. */
  datatype Transfer = Transfer(body: seq<Byte>, chunks: seq<Chunk>)

  /** `failed`: connections whose last callback failed; the library only tells them they are gone. */
  datatype State = State(
    shared: Shared,
    writable: set<Conn>,
    failed: set<Conn>,
    current: map<Conn, Transfer>,
    done: seq<Transfer>)

  const START := State(Shared(map[], true), {}, {}, map[], [])

  datatype Action =
    | Request(conn: Conn, answer: Answer, headersOk: bool)
    | Writeable(conn: Conn, took: int, kept: bool)
    | Gone(conn: Conn)

  function Outcomes(s: State, c: Conn, o: Outcome, transfers: map<Conn, Transfer>): State {
    State(o.shared, if o.wants then s.writable + {c} else s.writable - {c},
          if o.rc != 0 then s.failed + {c} else s.failed, transfers, s.done)
  }

  function Step(enabled: bool, s: State, a: Action): Option<State> {
    match a
    case Request(c, answer, headersOk) =>
      if c in s.failed then None
      else
        var o := OnRequest(enabled, s.shared, c, answer, headersOk);
        var t := if o.rc == 0 && answer.Found? then s.current[c := Transfer(answer.body, [])] else s.current - {c};
        Some(Outcomes(s, c, o, t))
    case Writeable(c, took, kept) =>
      if c in s.failed || c !in s.writable then None
      else
        var o := OnWriteable(s.shared, c, took, kept);
        if c !in s.current then Some(Outcomes(s, c, o, s.current))
        else
          var t := s.current[c].(chunks := s.current[c].chunks + if o.wrote.Some? then [o.wrote.value] else []);
          var after := Outcomes(s, c, o, s.current[c := t]);
          Some(if o.completed then after.(current := s.current - {c}, done := s.done + [t]) else after)
    case Gone(c) =>
      Some(State(OnGone(s.shared, c), s.writable - {c}, s.failed - {c}, s.current - {c}, s.done))
  }

  function Concat(chunks: seq<Chunk>): seq<Byte> {
    if chunks == [] then [] else Concat(chunks[..|chunks| - 1]) + chunks[|chunks| - 1].data
  }

  /** All chunks so far are full and none is marked final; together they are the first of the body. */
  predicate Partial(body: seq<Byte>, chunks: seq<Chunk>, offset: nat) {
    && offset == CHUNK_SIZE * |chunks|
    && (offset < |body| || (offset == 0 && body == []))
    && Concat(chunks) == body[..offset]
    && forall i :: 0 <= i < |chunks| ==> !chunks[i].last && |chunks[i].data| == CHUNK_SIZE
  }

  /** The chunks are the body: each has 1 to 16384 bytes, there are exactly as many as needed, and
      only the last is marked final. */
  predicate Conserved(t: Transfer) {
    && Concat(t.chunks) == t.body
    && |t.chunks| == (|t.body| + 16383) / 16384
    && forall i :: 0 <= i < |t.chunks| ==>
         1 <= |t.chunks[i].data| <= 16384 && (t.chunks[i].last <==> i == |t.chunks| - 1)
  }

  /** A connection in the middle of a response has a turn coming, and its offset says how far it is. */
  predicate ConnSound(s: State, c: Conn)
    requires c in s.shared.sessions
  {
    var state := s.shared.sessions[c];
    c !in s.failed ==>
      if state.asset.None? then c !in s.current
      else
        && c in s.writable && c in s.current
        && s.current[c].body == state.asset.value
        && Partial(state.asset.value, s.current[c].chunks, state.offset)
  }

  predicate Sound(s: State) {
    && (forall c :: c in s.shared.sessions ==> ConnSound(s, c))
    && (forall c :: c in s.current ==> c in s.shared.sessions)
    && (forall i :: 0 <= i < |s.done| ==> Conserved(s.done[i]))
  }

  /** One more chunk, seen by its own transfer. */
  lemma ChunkAdvances(body: seq<Byte>, chunks: seq<Chunk>, offset: nat)
    requires Partial(body, chunks, offset) && offset < |body|
    ensures var size := Min(|body| - offset, CHUNK_SIZE);
            var more := chunks + [Chunk(body[offset..offset + size], |body| - offset <= size)];
            && (offset + size < |body| ==> Partial(body, more, offset + size))
            && (offset + size == |body| ==> Conserved(Transfer(body, more)))
  {
    var size := Min(|body| - offset, CHUNK_SIZE);
    var more := chunks + [Chunk(body[offset..offset + size], |body| - offset <= size)];
    assert more[..|more| - 1] == chunks;
    assert body[..offset] + body[offset..offset + size] == body[..offset + size];
    if offset + size == |body| {
      assert body[..offset + size] == body;
    }
  }

  lemma SoundRequest(enabled: bool, s: State, a: Action)
    requires Sound(s) && a.Request? && Step(enabled, s, a).Some?
    ensures Sound(Step(enabled, s, a).value)
  {
    var t := Step(enabled, s, a).value;
    forall c | c in t.shared.sessions ensures ConnSound(t, c) {
      if c != a.conn { assert ConnSound(s, c); }
      else if c in s.shared.sessions { assert ConnSound(s, c); }
    }
  }

  /** What a turn to write does to a transfer that has missing bytes, and to one of an empty body. */
  lemma ChunkTurn(body: seq<Byte>, offset: nat, took: int, kept: bool)
    requires offset < |body|
    ensures var o := OnWriteable(Shared(map[0 := HttpState(Some(body), offset)], true), 0, took, kept);
            var size := Min(|body| - offset, CHUNK_SIZE);
            if took != size then !o.completed && o.rc != 0
            else
              && o.wrote == Some(Chunk(body[offset..offset + size], |body| - offset <= size))
              && (if offset + size < |body| then
                    !o.completed && o.wants && o.rc == 0 && o.shared.sessions[0] == HttpState(Some(body), offset + size)
                  else o.completed && o.shared.sessions[0] == HttpState(None, 0))
  {}

  lemma EmptyTurn(took: int, kept: bool)
    ensures var o := OnWriteable(Shared(map[0 := HttpState(Some([]), 0)], true), 0, took, kept);
            o.completed && o.wrote.None? && o.shared.sessions[0] == HttpState(None, 0)
  {}

  lemma EmptyBodyConserved()
    ensures Conserved(Transfer([], []))
  {}

  /** The transfer under way on a connection, before and after its turn to write. */
  predicate TurnSound(body: seq<Byte>, chunks: seq<Chunk>, o: Outcome)
    requires 0 in o.shared.sessions
  {
    var more := chunks + if o.wrote.Some? then [o.wrote.value] else [];
    && (o.completed ==> Conserved(Transfer(body, more)) && o.shared.sessions[0].asset.None?)
    && (!o.completed && o.rc == 0 ==>
         o.wants && o.shared.sessions[0].asset == Some(body) && Partial(body, more, o.shared.sessions[0].offset))
  }

  lemma TransferAdvances(body: seq<Byte>, chunks: seq<Chunk>, offset: nat, took: int, kept: bool)
    requires Partial(body, chunks, offset)
    ensures var o := OnWriteable(Shared(map[0 := HttpState(Some(body), offset)], true), 0, took, kept);
            0 in o.shared.sessions && TurnSound(body, chunks, o)
  {
    if offset < |body| {
      ChunkTurn(body, offset, took, kept);
      ChunkAdvances(body, chunks, offset);
    } else {
      EmptyTurn(took, kept);
      EmptyBodyConserved();
      assert chunks == [] && chunks + [] == chunks;
    }
  }

  /** A turn to write does to one connection what it does to that connection alone. */
  lemma WriteableIsLocal(sh: Shared, c: Conn, took: int, kept: bool)
    requires c in sh.sessions && sh.sessions[c].asset.Some?
    ensures var o := OnWriteable(sh, c, took, kept);
            var alone := OnWriteable(Shared(map[0 := sh.sessions[c]], true), 0, took, kept);
            && o.rc == alone.rc && o.wants == alone.wants && o.wrote == alone.wrote && o.completed == alone.completed
            && o.shared.sessions == sh.sessions[c := alone.shared.sessions[0]]
  {
    assert sh.sessions[c := sh.sessions[c]] == sh.sessions;
  }

  lemma SoundWriteable(enabled: bool, s: State, c: Conn, took: int, kept: bool)
    requires Sound(s) && Step(enabled, s, Writeable(c, took, kept)).Some?
    ensures Sound(Step(enabled, s, Writeable(c, took, kept)).value)
  {
    if c in s.shared.sessions {
      assert ConnSound(s, c);
      if s.shared.sessions[c].asset.Some? {
        SoundTurn(enabled, s, c, took, kept);
        return;
      }
    }
    var t := Step(enabled, s, Writeable(c, took, kept)).value;
    forall d | d in t.shared.sessions ensures ConnSound(t, d) {
      assert ConnSound(s, d);
    }
  }

  /** What a turn of `c` with outcome `o` does to the state, `o` seen from that connection alone. */
  predicate TurnEffect(s: State, t: State, c: Conn, o: Outcome) {
    && c in s.current && 0 in o.shared.sessions
    && t.shared.sessions == s.shared.sessions[c := o.shared.sessions[0]]
    && t.failed == (if o.rc != 0 then s.failed + {c} else s.failed)
    && t.writable == (if o.wants then s.writable + {c} else s.writable - {c})
    && var transfer := s.current[c].(chunks := s.current[c].chunks + if o.wrote.Some? then [o.wrote.value] else []);
       if o.completed then t.current == s.current - {c} && t.done == s.done + [transfer]
       else t.current == s.current[c := transfer] && t.done == s.done
  }

  lemma TurnHasEffect(enabled: bool, s: State, c: Conn, took: int, kept: bool)
    requires Step(enabled, s, Writeable(c, took, kept)).Some? && c in s.current
    requires c in s.shared.sessions && s.shared.sessions[c].asset.Some?
    ensures TurnEffect(s, Step(enabled, s, Writeable(c, took, kept)).value, c,
                       OnWriteable(Shared(map[0 := s.shared.sessions[c]], true), 0, took, kept))
  {
    WriteableIsLocal(s.shared, c, took, kept);
  }

  lemma SoundTurn(enabled: bool, s: State, c: Conn, took: int, kept: bool)
    requires Sound(s) && Step(enabled, s, Writeable(c, took, kept)).Some?
    requires c in s.shared.sessions && s.shared.sessions[c].asset.Some?
    ensures Sound(Step(enabled, s, Writeable(c, took, kept)).value)
  {
    assert ConnSound(s, c);
    TurnHasEffect(enabled, s, c, took, kept);
    TransferAdvances(s.current[c].body, s.current[c].chunks, s.shared.sessions[c].offset, took, kept);
    SoundAfterTurn(s, Step(enabled, s, Writeable(c, took, kept)).value, c,
                   OnWriteable(Shared(map[0 := s.shared.sessions[c]], true), 0, took, kept));
  }

  lemma SoundAfterTurn(s: State, t: State, c: Conn, o: Outcome)
    requires Sound(s) && TurnEffect(s, t, c, o) && c in s.shared.sessions
    requires TurnSound(s.current[c].body, s.current[c].chunks, o)
    ensures Sound(t)
  {
    TurnIsSoundForItself(s, t, c, o);
    forall d | d in t.shared.sessions ensures ConnSound(t, d) {
      if d != c { TurnIsSoundForOthers(s, t, c, o, d); }
    }
  }

  lemma TurnIsSoundForItself(s: State, t: State, c: Conn, o: Outcome)
    requires TurnEffect(s, t, c, o) && TurnSound(s.current[c].body, s.current[c].chunks, o)
    ensures c in t.shared.sessions && ConnSound(t, c)
  {}

  lemma TurnIsSoundForOthers(s: State, t: State, c: Conn, o: Outcome, d: Conn)
    requires TurnEffect(s, t, c, o) && d in s.shared.sessions && d != c && ConnSound(s, d)
    ensures d in t.shared.sessions && ConnSound(t, d)
  {}

  lemma SoundStep(enabled: bool, s: State, a: Action)
    requires Sound(s) && Step(enabled, s, a).Some?
    ensures Sound(Step(enabled, s, a).value)
  {
    match a
    case Request(_, _, _) => SoundRequest(enabled, s, a);
    case Writeable(c, took, kept) => SoundWriteable(enabled, s, c, took, kept);
    case Gone(c) =>
      var t := Step(enabled, s, a).value;
      forall d | d in t.shared.sessions ensures ConnSound(t, d) {
        assert ConnSound(s, d);
      }
  }

  /** The state after a run of callbacks of any connections, if every one of them could come in turn. */
  function Exec(enabled: bool, s: State, acts: seq<Action>): Option<State> {
    if acts == [] then Some(s)
    else match Exec(enabled, s, acts[..|acts| - 1])
      case None => None
      case Some(before) => Step(enabled, before, acts[|acts| - 1])
  }

  lemma {:induction false} SoundFrom(enabled: bool, s: State, acts: seq<Action>, t: State)
    requires Sound(s) && Exec(enabled, s, acts) == Some(t)
    ensures Sound(t)
  {
    if acts != [] {
      var mid := Exec(enabled, s, acts[..|acts| - 1]).value;
      SoundFrom(enabled, s, acts[..|acts| - 1], mid);
      SoundStep(enabled, mid, acts[|acts| - 1]);
    }
  }

  lemma SoundRun(enabled: bool, acts: seq<Action>, s: State)
    requires Exec(enabled, START, acts) == Some(s)
    ensures Sound(s)
  {
    SoundFrom(enabled, START, acts, s);
  }

  /** Over any interleaving of connections and successive requests: every completed transaction sent
      exactly its announced body in exactly the chunks it needs. */
  lemma BodiesAreConserved(enabled: bool, acts: seq<Action>, s: State)
    requires Exec(enabled, START, acts) == Some(s)
    ensures forall i :: 0 <= i < |s.done| ==> Conserved(s.done[i])
  {
    SoundRun(enabled, acts, s);
  }

  /** A transaction under way has sent its body up to its offset, and has a turn to write coming. */
  lemma TransactionsUnderWay(enabled: bool, acts: seq<Action>, s: State, c: Conn)
    requires Exec(enabled, START, acts) == Some(s) && c in s.current && c !in s.failed
    ensures c in s.writable && c in s.shared.sessions && s.shared.sessions[c].asset == Some(s.current[c].body)
    ensures Concat(s.current[c].chunks) == s.current[c].body[..s.shared.sessions[c].offset]
  {
    SoundRun(enabled, acts, s);
    assert ConnSound(s, c);
  }

  // ---- Transfers come to their end -------------------------------------------------

  /** Turns to write that `remaining` bytes take; an empty body takes one too. */
  function TurnsNeeded(remaining: nat): (n: nat)
    ensures n == if remaining == 0 then 1 else (remaining + 16383) / 16384
  {
    if remaining <= CHUNK_SIZE then 1 else 1 + TurnsNeeded(remaining - CHUNK_SIZE)
  }

  /** `c` has `n` turns of its transfer of `body` before it, and the next one is requested. */
  predicate UnderWay(s: State, c: Conn, body: seq<Byte>, n: nat) {
    && c !in s.failed && c in s.writable && c in s.shared.sessions && c in s.current
    && s.shared.sessions[c].asset == Some(body) && s.current[c].body == body
    && n == TurnsNeeded(|body| - s.shared.sessions[c].offset)
  }

  /** A turn of `c` in which the library takes the whole chunk. */
  predicate FullTurn(s: State, a: Action, c: Conn) {
    && a.Writeable? && a.conn == c && c in s.shared.sessions && s.shared.sessions[c].asset.Some?
    && a.took == Min(|s.shared.sessions[c].asset.value| - s.shared.sessions[c].offset, CHUNK_SIZE)
  }

  /** All that happens to `c` in the run are full turns; anything may happen to the others. */
  predicate OnlyFullTurns(enabled: bool, s: State, acts: seq<Action>, c: Conn)
    requires Exec(enabled, s, acts).Some?
  {
    acts != [] ==>
      var before, a := acts[..|acts| - 1], acts[|acts| - 1];
      && OnlyFullTurns(enabled, s, before, c)
      && (a.conn == c ==> FullTurn(Exec(enabled, s, before).value, a, c))
  }

  function TurnsOf(acts: seq<Action>, c: Conn): nat {
    if acts == [] then 0 else TurnsOf(acts[..|acts| - 1], c) + if acts[|acts| - 1].conn == c then 1 else 0
  }

  lemma FullTurnAdvances(enabled: bool, s: State, a: Action, c: Conn, body: seq<Byte>, n: nat)
    requires UnderWay(s, c, body, n) && FullTurn(s, a, c) && Step(enabled, s, a).Some?
    ensures var t := Step(enabled, s, a).value;
            if n > 1 then t.done == s.done && UnderWay(t, c, body, n - 1)
            else
              && |t.done| == |s.done| + 1 && t.done[|s.done|].body == body && t.done[..|s.done|] == s.done
              && c !in t.writable && (c in t.failed <==> !a.kept)
  {}

  lemma OthersLeaveAlone(enabled: bool, s: State, a: Action, c: Conn)
    requires a.conn != c && Step(enabled, s, a).Some?
    ensures var t := Step(enabled, s, a).value;
            && s.done <= t.done && (c in t.writable <==> c in s.writable) && (c in t.failed <==> c in s.failed)
            && forall body, n :: UnderWay(s, c, body, n) ==> UnderWay(t, c, body, n)
  {}

  /** Whether the library kept `c` after its last turn. */
  predicate KeptLast(acts: seq<Action>, c: Conn) {
    acts != [] ==>
      var a := acts[|acts| - 1];
      if a.conn == c && a.Writeable? then a.kept else KeptLast(acts[..|acts| - 1], c)
  }

  /** `k` of `n` turns are over; if that is all of them, the transfer is among those completed since, and the
      connection has failed unless it was kept. */
  predicate Advanced(s: State, t: State, c: Conn, body: seq<Byte>, n: nat, k: nat, kept: bool) {
    && s.done <= t.done && k <= n
    && (k < n ==> UnderWay(t, c, body, n - k))
    && (k == n ==> c !in t.writable && (c in t.failed <==> !kept) && exists i :: |s.done| <= i < |t.done| && t.done[i].body == body)
  }

  lemma AdvancedStep(enabled: bool, s: State, mid: State, a: Action, c: Conn, body: seq<Byte>, n: nat, k: nat, kept: bool)
    requires Advanced(s, mid, c, body, n, k, kept) && Step(enabled, mid, a).Some?
    requires a.conn == c ==> FullTurn(mid, a, c)
    ensures if a.conn == c then Advanced(s, Step(enabled, mid, a).value, c, body, n, k + 1, a.kept)
            else Advanced(s, Step(enabled, mid, a).value, c, body, n, k, kept)
  {
    var t := Step(enabled, mid, a).value;
    if a.conn == c {
      FullTurnAdvances(enabled, mid, a, c, body, n - k);
    } else {
      OthersLeaveAlone(enabled, mid, a, c);
      if k == n {
        var i :| |s.done| <= i < |mid.done| && mid.done[i].body == body;
        assert t.done[i] == mid.done[i];
      }
    }
  }

  lemma {:induction false} AdvancedRun(enabled: bool, s: State, acts: seq<Action>, t: State, c: Conn, body: seq<Byte>, n: nat)
    requires UnderWay(s, c, body, n) && Exec(enabled, s, acts) == Some(t) && OnlyFullTurns(enabled, s, acts, c)
    ensures Advanced(s, t, c, body, n, TurnsOf(acts, c), KeptLast(acts, c))
  {
    if acts != [] {
      var before := acts[..|acts| - 1];
      var mid := Exec(enabled, s, before).value;
      AdvancedRun(enabled, s, before, mid, c, body, n);
      AdvancedStep(enabled, s, mid, acts[|acts| - 1], c, body, n, TurnsOf(before, c), KeptLast(before, c));
    }
  }

  /** `k` of the `n` turns `c` needed in `s` for `body` were taken on the way to `t`: then its next turn is
      requested, or, if that is all of them, the transfer is among those completed since, and conserved; and
      the connection can take another request exactly if the library kept it. */
  predicate OnTime(s: State, t: State, c: Conn, body: seq<Byte>, n: nat, k: nat, kept: bool) {
    && k <= n
    && (k < n ==> UnderWay(t, c, body, n - k))
    && (k == n ==>
          && (c in t.failed <==> !kept)
          && exists i :: |s.done| <= i < |t.done| && t.done[i].body == body && Conserved(t.done[i]))
  }

  lemma AdvancedIsOnTime(s: State, t: State, c: Conn, body: seq<Byte>, n: nat, k: nat, kept: bool)
    requires forall i :: 0 <= i < |t.done| ==> Conserved(t.done[i])
    requires Advanced(s, t, c, body, n, k, kept)
    ensures OnTime(s, t, c, body, n, k, kept)
  {
    if k == n {
      var i :| |s.done| <= i < |t.done| && t.done[i].body == body;
      assert Conserved(t.done[i]);
    }
  }

  lemma OnTimeFrom(enabled: bool, s: State, acts: seq<Action>, t: State, c: Conn, body: seq<Byte>, n: nat)
    requires Sound(s) && UnderWay(s, c, body, n)
    requires Exec(enabled, s, acts) == Some(t) && OnlyFullTurns(enabled, s, acts, c)
    ensures OnTime(s, t, c, body, n, TurnsOf(acts, c), KeptLast(acts, c))
  {
    AdvancedRun(enabled, s, acts, t, c, body, n);
    SoundFrom(enabled, s, acts, t);
    AdvancedIsOnTime(s, t, c, body, n, TurnsOf(acts, c), KeptLast(acts, c));
  }

  /** From any reachable state, whatever the other connections do: a transfer whose turns all succeed is
      complete, and conserved, after exactly as many turns as its missing bytes need, and until then its
      next turn is requested. The connection then takes another request if and only if the library kept it. */
  lemma TransfersCompleteOnTime(
      enabled: bool, before: seq<Action>, s: State, acts: seq<Action>, t: State, c: Conn)
    requires Exec(enabled, START, before) == Some(s) && c in s.current && c !in s.failed
    requires Exec(enabled, s, acts) == Some(t) && OnlyFullTurns(enabled, s, acts, c)
    ensures c in s.shared.sessions && s.shared.sessions[c].offset <= |s.current[c].body|
    ensures OnTime(s, t, c, s.current[c].body, TurnsNeeded(|s.current[c].body| - s.shared.sessions[c].offset), TurnsOf(acts, c),
                   KeptLast(acts, c))
    ensures TurnsOf(acts, c) == TurnsNeeded(|s.current[c].body| - s.shared.sessions[c].offset) ==>
              forall answer, headersOk :: Step(enabled, t, Request(c, answer, headersOk)).Some? <==> KeptLast(acts, c)
  {
    SoundRun(enabled, before, s);
    assert ConnSound(s, c);
    OnTimeFrom(enabled, s, acts, t, c, s.current[c].body, TurnsNeeded(|s.current[c].body| - s.shared.sessions[c].offset));
  }

  /** A request that finds an asset and whose headers go out starts a transfer of it, in as many turns as its
      bytes need; any other answer fails the connection, which then writes nothing. */
  lemma RequestStartsTransfer(enabled: bool, s: State, c: Conn, answer: Answer, headersOk: bool)
    requires c !in s.failed
    ensures Step(enabled, s, Request(c, answer, headersOk)).Some?
    ensures var t := Step(enabled, s, Request(c, answer, headersOk)).value;
            if enabled && answer.Found? && headersOk then
              UnderWay(t, c, answer.body, TurnsNeeded(|answer.body|)) && t.current[c].chunks == []
            else c in t.failed && c !in t.writable && c !in t.current
  {}

  // ---- What costs the transport its health ---------------------------------------------

  /** A turn in which the library does not take the whole chunk. */
  predicate IsShort(s: State, a: Action) {
    && a.Writeable? && a.conn in s.shared.sessions && s.shared.sessions[a.conn].asset.Some?
    && var left := |s.shared.sessions[a.conn].asset.value| - s.shared.sessions[a.conn].offset;
       left > 0 && a.took != if left < 16384 then left else 16384
  }

  function ShortTurns(enabled: bool, s: State, acts: seq<Action>): nat
    requires Exec(enabled, s, acts).Some?
  {
    if acts == [] then 0
    else
      var before := acts[..|acts| - 1];
      ShortTurns(enabled, s, before) + if IsShort(Exec(enabled, s, before).value, acts[|acts| - 1]) then 1 else 0
  }

  lemma ShortTurnStep(enabled: bool, s: State, a: Action)
    requires Step(enabled, s, a).Some?
    ensures var t := Step(enabled, s, a).value;
            && (t.shared.healthy <==> s.shared.healthy && !IsShort(s, a))
            && (IsShort(s, a) ==> a.conn in t.failed)
  {}

  /** Over any run the transport stays healthy exactly if no chunk falls short. */
  lemma {:induction false} HealthIsLostExactly(enabled: bool, s: State, acts: seq<Action>, t: State)
    requires Exec(enabled, s, acts) == Some(t)
    ensures t.shared.healthy <==> s.shared.healthy && ShortTurns(enabled, s, acts) == 0
  {
    if acts != [] {
      var mid := Exec(enabled, s, acts[..|acts| - 1]).value;
      HealthIsLostExactly(enabled, s, acts[..|acts| - 1], mid);
      ShortTurnStep(enabled, mid, acts[|acts| - 1]);
    }
  }
}
