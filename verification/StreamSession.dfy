/**
 A streaming transcription session: it holds one engine slot while it is open, buffers the chunks it
 accepts, and leaves one row in the history. Engine calls run on a blocking task that takes the slot
 with it, so a caller that stops waiting leaves the slot with the task.
 */
module StreamSessions {
  import opened Prelude

  type Sample = real

  const SAMPLE_RATE: nat := 16000
  const MAX_STREAM_BUFFER_MS: nat := 30 * 60 * 1000

  datatype Error = StreamProtocol | InputTooLong | EngineError | EnginePanic | InferenceTimeout | Other(what: string)

  /** A row handed to the history. */
  datatype Attempt =
    | Completed(durationMs: nat, audio: Option<seq<Sample>>)
    | Failure(error: Error, durationMs: nat)
    | Disconnected(durationMs: nat)

  /** Where the engine slot is: with the session, with a blocking task, or back in the pool. */
  datatype Slot = Held | Lent | Returned

  /** How an engine call ends for the session; `Dropped` when the caller stops waiting for it. */
  datatype Run = Succeeds | Fails | Panics | Dropped

  datatype Ending = Ran(run: Run) | TimedOut

  /** What the engine and its owner allow a session: its input limit and whether audio is kept. */
  datatype Config = Config(maxAudioMs: int, saveAudio: bool) {
    function CapMs(): nat {
      if maxAudioMs > 0 then maxAudioMs else MAX_STREAM_BUFFER_MS
    }
  }

  /** `live` until the session is consumed or dropped. */
  datatype Session = Session(open: bool, slot: Slot, streaming: bool, buffer: seq<Sample>, rows: seq<Attempt>, live: bool) {
    function BufferedMs(): nat { Ms(|buffer|) }
  }

  function Ms(samples: nat): nat { samples * 1000 / SAMPLE_RATE }

  // -------------------------------------------------------------------
  // The operations
  // -------------------------------------------------------------------

  datatype Call =
    | Feed(chunk: seq<Sample>, run: Run, cut: bool)
    | Finalize(ending: Ending)
    | Abort(error: Error, cut: bool)
    | Drop(runtime: bool)
    | TaskEnds

  datatype Opening = Refused(error: Error) | Granted(supportsStreaming: bool, begin: Run)

  function Opened(o: Opening): Session {
    match o
    case Refused(error) => Session(false, Returned, false, [], [Failure(error, 0)], false)
    case Granted(supports, begin) =>
      if !supports then Session(true, Held, false, [], [], true)
      else match begin
        case Succeeds => Session(true, Held, true, [], [], true)
        case Fails => Session(true, Held, false, [], [], true)
        case Panics => Session(false, Returned, false, [], [], true)
        case Dropped => Session(false, Lent, false, [], [], false)
  }

  /** Close, record the failure, and give the slot back; `cut` when the caller stops waiting for the engine's reset. */
  function Failed(s: Session, error: Error, cut: bool): Session {
    s.(open := false,
       slot := if s.open then (if cut then Lent else Returned) else s.slot,
       rows := s.rows + [Failure(error, s.BufferedMs())])
  }

  function EngineRan(s: Session, run: Run): Session {
    match run
    case Succeeds => s
    case Fails => s
    case Panics => s.(open := false, slot := Returned)
    case Dropped => s.(open := false, slot := Lent)
  }

  predicate Accepts(s: Session, chunk: seq<Sample>, c: Config) {
    s.open && s.BufferedMs() + Ms(|chunk|) <= c.CapMs()
  }

  function Fed(s: Session, chunk: seq<Sample>, run: Run, cut: bool, c: Config): Session {
    if !s.open then s
    else if !Accepts(s, chunk, c) then Failed(s, InputTooLong, cut)
    else
      var t := s.(buffer := s.buffer + chunk);
      if !t.streaming then t
      else match run
        case Succeeds => EngineRan(t, run)
        case Fails => Failed(EngineRan(t, run), EngineError, cut)
        case Panics => Failed(EngineRan(t, run), EnginePanic, cut)
        case Dropped => EngineRan(t, run)
  }

  function Finalized(s: Session, ending: Ending, c: Config): Session {
    if !s.open then s.(live := false)
    else match ending
      case TimedOut => s.(open := false, slot := Lent, rows := s.rows + [Failure(InferenceTimeout, s.BufferedMs())], live := false)
      case Ran(Succeeds) =>
        s.(open := false, slot := Returned, buffer := [], live := false,
           rows := s.rows + [Completed(s.BufferedMs(), if c.saveAudio then Some(s.buffer) else None)])
      case Ran(Fails) => s.(open := false, slot := Returned, rows := s.rows + [Failure(EngineError, s.BufferedMs())], live := false)
      case Ran(Panics) => s.(open := false, slot := Returned, rows := s.rows + [Failure(EnginePanic, s.BufferedMs())], live := false)
      case Ran(Dropped) => s.(open := false, slot := Lent, live := false)
  }

  function Released(s: Session, runtime: bool): Session {
    if !s.open then s.(live := false)
    else s.(open := false, slot := Returned, live := false, rows := s.rows + if runtime then [Disconnected(s.BufferedMs())] else [])
  }

  function Step(s: Session, call: Call, c: Config): Session {
    match call
    case Feed(chunk, run, cut) => Fed(s, chunk, run, cut, c)
    case Finalize(ending) => Finalized(s, ending, c)
    case Abort(error, cut) => (if s.open then Failed(s, error, cut) else s).(live := false)
    case Drop(runtime) => Released(s, runtime)
    case TaskEnds => if s.slot == Lent then s.(slot := Returned) else s
  }

  /** A session that is gone takes no calls, except that a task it left behind may end. */
  ghost predicate ValidRun(s: Session, calls: seq<Call>, c: Config)
    decreases |calls|
  {
    calls == [] || ((s.live || calls[0] == TaskEnds) && ValidRun(Step(s, calls[0], c), calls[1..], c))
  }

  function After(s: Session, calls: seq<Call>, c: Config): Session
    decreases |calls|
  {
    if calls == [] then s else After(Step(s, calls[0], c), calls[1..], c)
  }

  // -------------------------------------------------------------------
  // One row, one slot
  // -------------------------------------------------------------------

  /**
   Between calls: the session holds the slot exactly while it is open, an open session has written
   nothing, no session has written more than one row, and one that is gone is closed.
   */
  ghost predicate Inv(s: Session) {
    && (s.slot == Held <==> s.open)
    && (s.open ==> s.rows == [])
    && |s.rows| <= 1
    && (!s.live ==> !s.open)
  }

  lemma StepKeepsInv(s: Session, call: Call, c: Config)
    requires Inv(s)
    ensures Inv(Step(s, call, c))
  {
  }

  /** Whatever is called on a session, and however its calls end, it holds the slot exactly while open and writes at most one row. */
  lemma {:induction false} RunKeepsInv(s: Session, calls: seq<Call>, c: Config)
    requires Inv(s)
    ensures Inv(After(s, calls, c))
    decreases |calls|
  {
    if calls != [] {
      StepKeepsInv(s, calls[0], c);
      RunKeepsInv(Step(s, calls[0], c), calls[1..], c);
    }
  }

  /** The opening loses the row: its engine call panicked or was abandoned. */
  predicate OpeningLoses(o: Opening) {
    o.Granted? && o.supportsStreaming && (o.begin.Panics? || o.begin.Dropped?)
  }

  /** The call loses the row: an engine call abandoned partway, or an open session dropped where no runtime is left to write with. */
  predicate Loses(s: Session, call: Call, c: Config) {
    s.open && match call
              case Feed(chunk, run, _) => Accepts(s, chunk, c) && s.streaming && run.Dropped?
              case Finalize(ending) => ending == Ran(Dropped)
              case Drop(runtime) => !runtime
              case _ => false
  }

  ghost predicate SomeCallLoses(s: Session, calls: seq<Call>, c: Config)
    decreases |calls|
  {
    calls != [] && (Loses(s, calls[0], c) || SomeCallLoses(Step(s, calls[0], c), calls[1..], c))
  }

  lemma {:induction false} ClosedStaysClosed(s: Session, calls: seq<Call>, c: Config)
    requires !s.open
    ensures !After(s, calls, c).open && After(s, calls, c).rows == s.rows && !SomeCallLoses(s, calls, c)
    decreases |calls|
  {
    if calls != [] {
      ClosedStaysClosed(Step(s, calls[0], c), calls[1..], c);
    }
  }

  /** From an open session to its end: one row exactly when no call on the way loses it, and none otherwise. */
  lemma {:induction false} OneRowUnlessLost(s: Session, calls: seq<Call>, c: Config)
    requires Inv(s) && s.open && !After(s, calls, c).open
    ensures |After(s, calls, c).rows| == if SomeCallLoses(s, calls, c) then 0 else 1
    decreases |calls|
  {
    var t := Step(s, calls[0], c);
    StepKeepsInv(s, calls[0], c);
    if t.open {
      OneRowUnlessLost(t, calls[1..], c);
    } else {
      ClosedStaysClosed(t, calls[1..], c);
    }
  }

  /**
   Every session that has ended wrote exactly one row unless its opening or one of its calls lost it,
   and then it wrote none.
   */
  lemma EndedSessionRows(o: Opening, calls: seq<Call>, c: Config)
    requires ValidRun(Opened(o), calls, c) && !After(Opened(o), calls, c).live
    ensures |After(Opened(o), calls, c).rows| == if OpeningLoses(o) || SomeCallLoses(Opened(o), calls, c) then 0 else 1
  {
    var s := Opened(o);
    RunKeepsInv(s, calls, c);
    if s.open {
      OneRowUnlessLost(s, calls, c);
    } else {
      ClosedStaysClosed(s, calls, c);
    }
  }

  /** The slot of a session that has ended is back in the pool, or with an engine task that will bring it back. */
  lemma SlotComesBack(o: Opening, calls: seq<Call>, c: Config)
    requires !After(Opened(o), calls, c).live
    ensures After(Opened(o), calls, c).slot != Held
    ensures After(Opened(o), calls + [TaskEnds], c).slot == Returned
  {
    RunKeepsInv(Opened(o), calls, c);
    AfterAppend(Opened(o), calls, TaskEnds, c);
  }

  lemma {:induction false} AfterAppend(s: Session, calls: seq<Call>, last: Call, c: Config)
    ensures After(s, calls + [last], c) == Step(After(s, calls, c), last, c)
    decreases |calls|
  {
    if calls == [] {
      assert (calls + [last])[1..] == [];
    } else {
      assert (calls + [last])[1..] == calls[1..] + [last];
      AfterAppend(Step(s, calls[0], c), calls[1..], last, c);
    }
  }

  // -------------------------------------------------------------------
  // The buffer
  // -------------------------------------------------------------------

  const SAMPLES_PER_MS: nat := SAMPLE_RATE / 1000

  /** The chunk the call has accepted, if any. */
  function Taken(s: Session, call: Call, c: Config): seq<Sample> {
    if call.Feed? && Accepts(s, call.chunk, c) then call.chunk else []
  }

  /** The chunks a run accepts, in order, joined. */
  ghost function Accepted(s: Session, calls: seq<Call>, c: Config): seq<Sample>
    decreases |calls|
  {
    if calls == [] then [] else Taken(s, calls[0], c) + Accepted(Step(s, calls[0], c), calls[1..], c)
  }

  /** The call hands the buffer over: the transcript succeeded. */
  predicate Completes(s: Session, call: Call) { s.open && call == Finalize(Ran(Succeeds)) }

  ghost predicate SomeCallCompletes(s: Session, calls: seq<Call>, c: Config)
    decreases |calls|
  {
    calls != [] && (Completes(s, calls[0]) || SomeCallCompletes(Step(s, calls[0], c), calls[1..], c))
  }

  lemma {:induction false} ClosedBuffersNothing(s: Session, calls: seq<Call>, c: Config)
    requires !s.open
    ensures After(s, calls, c).buffer == s.buffer && Accepted(s, calls, c) == [] && !SomeCallCompletes(s, calls, c)
    decreases |calls|
  {
    if calls != [] {
      ClosedBuffersNothing(Step(s, calls[0], c), calls[1..], c);
    }
  }

  lemma StepBuffers(s: Session, call: Call, c: Config)
    requires !Completes(s, call)
    ensures Step(s, call, c).buffer == s.buffer + Taken(s, call, c)
  {
  }

  /** A call that does not hand the buffer over moves what it takes from the audio to come into the buffer. */
  lemma StepAccepts(s: Session, calls: seq<Call>, c: Config)
    requires calls != [] && !Completes(s, calls[0])
    ensures Step(s, calls[0], c).buffer + Accepted(Step(s, calls[0], c), calls[1..], c) == s.buffer + Accepted(s, calls, c)
  {
    StepBuffers(s, calls[0], c);
    Regroup(s.buffer, Taken(s, calls[0], c), Accepted(Step(s, calls[0], c), calls[1..], c));
  }

  /**
   The buffer is the accepted chunks in order, until a successful finalize hands exactly those to the
   history, if audio is kept, with their length in milliseconds.
   */
  lemma {:induction false} BufferIsAccepted(s: Session, calls: seq<Call>, c: Config)
    requires Inv(s)
    ensures var e := After(s, calls, c);
            var all := s.buffer + Accepted(s, calls, c);
            if SomeCallCompletes(s, calls, c) then
              e.buffer == [] && e.rows == [Completed(Ms(|all|), if c.saveAudio then Some(all) else None)]
            else
              e.buffer == all
    decreases |calls|
  {
    if calls != [] {
      var t := Step(s, calls[0], c);
      StepKeepsInv(s, calls[0], c);
      if Completes(s, calls[0]) {
        ClosedBuffersNothing(t, calls[1..], c);
        ClosedStaysClosed(t, calls[1..], c);
        assert s.buffer + [] == s.buffer;
      } else {
        BufferIsAccepted(t, calls[1..], c);
        StepAccepts(s, calls, c);
      }
    }
  }

  function Duration(a: Attempt): nat { a.durationMs }

  /** A call that ends the session tells, in any row it attempts, of the buffer it found and what it took. */
  lemma EndingRow(s: Session, call: Call, c: Config)
    requires Inv(s) && s.open && !Step(s, call, c).open
    ensures var rows := Step(s, call, c).rows; rows != [] ==> Duration(rows[0]) == Ms(|s.buffer + Taken(s, call, c)|)
  {
  }

  lemma EndedRow(s: Session, calls: seq<Call>, c: Config)
    requires Inv(s) && s.open && calls != [] && !Step(s, calls[0], c).open
    ensures var e := After(s, calls, c);
            e.rows != [] ==> Duration(e.rows[0]) == Ms(|s.buffer + Accepted(s, calls, c)|)
  {
    var t := Step(s, calls[0], c);
    EndingRow(s, calls[0], c);
    ClosedBuffersNothing(t, calls[1..], c);
    ClosedStaysClosed(t, calls[1..], c);
    assert Taken(s, calls[0], c) + [] == Taken(s, calls[0], c);
  }

  /** Whatever row a session attempts, its duration is that of the audio accepted until then, none of which came after it. */
  lemma {:induction false} RowTellsAudio(s: Session, calls: seq<Call>, c: Config)
    requires Inv(s) && s.open
    ensures var e := After(s, calls, c);
            e.rows != [] ==> Duration(e.rows[0]) == Ms(|s.buffer + Accepted(s, calls, c)|)
    decreases |calls|
  {
    if calls == [] {
      assert After(s, calls, c) == s;
    } else {
      var t := Step(s, calls[0], c);
      StepKeepsInv(s, calls[0], c);
      if t.open {
        StepAccepts(s, calls, c);
        RowTellsAudio(t, calls[1..], c);
      } else {
        EndedRow(s, calls, c);
      }
    }
  }

  /** Thirty samples over the cap: two lengths each rounded down to milliseconds before they are added. */
  ghost predicate Bounded(s: Session, c: Config) {
    |s.buffer| <= SAMPLES_PER_MS * c.CapMs() + 2 * (SAMPLES_PER_MS - 1)
  }

  lemma StepKeepsBounded(s: Session, call: Call, c: Config)
    requires Bounded(s, c)
    ensures Bounded(Step(s, call, c), c)
  {
    if call.Feed? && Accepts(s, call.chunk, c) {
      WholeMs(|s.buffer|);
      WholeMs(|call.chunk|);
      assert |s.buffer + call.chunk| <= SAMPLES_PER_MS * c.CapMs() + 2 * (SAMPLES_PER_MS - 1);
    }
  }

  lemma WholeMs(n: nat)
    ensures SAMPLES_PER_MS * Ms(n) <= n < SAMPLES_PER_MS * Ms(n) + SAMPLES_PER_MS
  {
    assert n * 1000 / 16000 == n / 16;
  }

  /** However the audio is cut into chunks, the buffer never exceeds the cap by more than thirty samples. */
  lemma {:induction false} BufferBound(s: Session, calls: seq<Call>, c: Config)
    requires Bounded(s, c)
    ensures Bounded(After(s, calls, c), c)
    decreases |calls|
  {
    if calls != [] {
      StepKeepsBounded(s, calls[0], c);
      BufferBound(Step(s, calls[0], c), calls[1..], c);
    }
  }

  /**
   The bound is reached, under every cap: fifteen samples round down to nothing, and so do the last
   fifteen of the second chunk. After that even an empty chunk is refused, ending the session.
   */
  lemma BoundIsReached(c: Config, short: seq<Sample>, long: seq<Sample>)
    requires |short| == SAMPLES_PER_MS - 1 && |long| == SAMPLES_PER_MS * c.CapMs() + SAMPLES_PER_MS - 1
    ensures var e := After(Opened(Granted(false, Succeeds)), [Feed(short, Succeeds, false), Feed(long, Succeeds, false)], c);
            && e.open && |e.buffer| == SAMPLES_PER_MS * c.CapMs() + 2 * (SAMPLES_PER_MS - 1)
            && !Step(e, Feed([], Succeeds, false), c).open
  {
    var s := Session(true, Held, false, [], [], true);
    RoundedDown(c.CapMs());
    AcceptedUnstreamed(s, short, c);
    AcceptedUnstreamed(s.(buffer := short), long, c);
    TwoCalls(s, Feed(short, Succeeds, false), Feed(long, Succeeds, false), c);
    RefusedEvenEmpty(s.(buffer := short + long), c);
  }

  lemma RoundedDown(capMs: nat)
    ensures Ms(SAMPLES_PER_MS - 1) == Ms(0) == 0
    ensures Ms(SAMPLES_PER_MS * capMs + SAMPLES_PER_MS - 1) == capMs
    ensures Ms(SAMPLES_PER_MS * capMs + 2 * (SAMPLES_PER_MS - 1)) == capMs + 1
  {
    MsIs(SAMPLES_PER_MS * capMs + SAMPLES_PER_MS - 1, capMs);
    MsIs(SAMPLES_PER_MS * capMs + 2 * (SAMPLES_PER_MS - 1), capMs + 1);
  }

  lemma MsIs(n: nat, m: nat)
    requires SAMPLES_PER_MS * m <= n < SAMPLES_PER_MS * m + SAMPLES_PER_MS
    ensures Ms(n) == m
  {
    WholeMs(n);
  }

  lemma RefusedEvenEmpty(s: Session, c: Config)
    requires s.BufferedMs() > c.CapMs()
    ensures !Step(s, Feed([], Succeeds, false), c).open
  {
  }

  lemma AcceptedUnstreamed(s: Session, chunk: seq<Sample>, c: Config)
    requires Accepts(s, chunk, c) && !s.streaming
    ensures Step(s, Feed(chunk, Succeeds, false), c) == s.(buffer := s.buffer + chunk)
    ensures s.buffer == [] ==> s.buffer + chunk == chunk
  {
  }

  lemma TwoCalls(s: Session, first: Call, second: Call, c: Config)
    ensures After(s, [first, second], c) == Step(Step(s, first, c), second, c)
  {
    assert [first, second][1..] == [second] && [second][1..] == [];
    assert After(Step(s, first, c), [second], c) == After(Step(Step(s, first, c), second, c), [], c);
  }

  // -------------------------------------------------------------------
  // What each end of a session is put down to
  // -------------------------------------------------------------------

  /** The input limit in milliseconds: the engine's if it has one, and otherwise half an hour. */
  function LimitMs(c: Config): nat { if c.maxAudioMs > 0 then c.maxAudioMs else 1800000 }

  /** A chunk that would bring the audio over the limit, each length rounded down to whole milliseconds. */
  predicate OverLimit(s: Session, chunk: seq<Sample>, c: Config) {
    |s.buffer| * 1000 / 16000 + |chunk| * 1000 / 16000 > LimitMs(c)
  }

  /** The session goes on with this audio and nothing written. */
  predicate GoesOn(s: Session, t: Session, buffer: seq<Sample>) {
    t.open && t.slot == s.slot && t.rows == s.rows && t.buffer == buffer && t.live == s.live
  }

  /** The session has ended with this error, about that much audio. */
  predicate EndsWith(t: Session, error: Error, samples: nat) {
    !t.open && t.rows == [Failure(error, samples * 1000 / 16000)]
  }

  /** A chunk is refused over the limit, and otherwise kept; then only an engine error or panic ends the session. */
  lemma FeedOutcome(s: Session, chunk: seq<Sample>, run: Run, cut: bool, c: Config)
    requires Inv(s)
    ensures var t := Step(s, Feed(chunk, run, cut), c);
            if !s.open then t == s
            else if OverLimit(s, chunk, c) then EndsWith(t, InputTooLong, |s.buffer|) && t.buffer == s.buffer
            else if !s.streaming || run == Succeeds then GoesOn(s, t, s.buffer + chunk)
            else if run == Fails then EndsWith(t, EngineError, |s.buffer + chunk|)
            else if run == Panics then EndsWith(t, EnginePanic, |s.buffer + chunk|)
            else !t.open && t.rows == []
  {
  }

  /** A finalize always ends the session: with the transcript, or with what kept it from one. */
  lemma FinalizeOutcome(s: Session, ending: Ending, c: Config)
    requires Inv(s) && s.open
    ensures var t := Step(s, Finalize(ending), c);
            && !t.open && !t.live
            && match ending
               case TimedOut => EndsWith(t, InferenceTimeout, |s.buffer|)
               case Ran(Succeeds) => t.rows == [Completed(|s.buffer| * 1000 / 16000, if c.saveAudio then Some(s.buffer) else None)] && t.slot == Returned
               case Ran(Fails) => EndsWith(t, EngineError, |s.buffer|) && t.slot == Returned
               case Ran(Panics) => EndsWith(t, EnginePanic, |s.buffer|) && t.slot == Returned
               case Ran(Dropped) => t.rows == []
  {
  }

  /** An abort records the error it is given, a drop that the client went away, if there is anything left to record it with. */
  lemma LeavingOutcome(s: Session, error: Error, cut: bool, runtime: bool, c: Config)
    requires Inv(s) && s.open
    ensures EndsWith(Step(s, Abort(error, cut), c), error, |s.buffer|)
    ensures var t := Step(s, Drop(runtime), c);
            !t.open && t.slot == Returned && t.rows == if runtime then [Disconnected(|s.buffer| * 1000 / 16000)] else []
  {
  }

  /** An opening that was refused leaves its error; one that was granted starts empty, streaming exactly when the engine can and its stream began. */
  lemma OpeningOutcome(error: Error, supports: bool, begin: Run)
    ensures var t := Opened(Refused(error)); EndsWith(t, error, 0) && t.slot == Returned
    ensures var t := Opened(Granted(supports, begin));
            && t.buffer == [] && t.rows == []
            && (t.open <==> !supports || begin == Succeeds || begin == Fails)
            && (t.open ==> t.slot == Held && (t.streaming <==> supports && begin == Succeeds))
  {
  }

  /** Whatever is called after a session has ended, the row it ended with is the row that stays. */
  lemma EndIsFinal(s: Session, call: Call, after: seq<Call>, c: Config)
    requires Inv(s) && s.open && !Step(s, call, c).open
    ensures After(s, [call] + after, c).rows == Step(s, call, c).rows && !After(s, [call] + after, c).open
  {
    assert ([call] + after)[1..] == after;
    ClosedStaysClosed(Step(s, call, c), after, c);
  }

  // -------------------------------------------------------------------
  // The session as written
  // -------------------------------------------------------------------

  class StreamSession {
    const config: Config
    var open: bool
    var slot: Slot
    var streaming: bool
    var buffer: seq<Sample>
    var live: bool
    /** The rows handed to the history. */
    var rows: seq<Attempt>

    ghost function View(): Session
      reads this
    {
      Session(open, slot, streaming, buffer, rows, live)
    }

    ghost predicate Valid()
      reads this
    {
      Inv(View())
    }

    /** What `open_stream` returns once it has an engine slot. */
    constructor (c: Config, supportsStreaming: bool, begin: Run)
      ensures Valid() && View() == Opened(Granted(supportsStreaming, begin)) && config == c
    {
      config := c;
      open, slot, streaming, buffer, live, rows := true, Held, false, [], true, [];
      new;
      if supportsStreaming {
        var r := RunOnEngine(begin);
        if r == Some(Ok(true)) {
          streaming := true;
        } else if r.None? {
          live := false;
        }
      }
    }

    /** Lend the slot to an engine call and take it back; `None` when the caller never learns how it ended. */
    method RunOnEngine(run: Run) returns (r: Option<Result<bool, Error>>)
      requires Valid()
      modifies this`open, this`slot
      ensures old(open) ==> View() == EngineRan(old(View()), run)
      ensures old(open) ==> r == match run
                                  case Succeeds => Some(Ok(true))
                                  case Fails => Some(Err(EngineError))
                                  case Panics => Some(Err(EnginePanic))
                                  case Dropped => None
      ensures !old(open) ==> View() == old(View()) && r == Some(Err(StreamProtocol))
    {
      if !open {
        return Some(Err(StreamProtocol));
      }
      open, slot := false, Lent;
      match run
      case Dropped => return None;
      case Panics =>
        slot := Returned;
        return Some(Err(EnginePanic));
      case Succeeds =>
        open, slot := true, Held;
        return Some(Ok(true));
      case Fails =>
        open, slot := true, Held;
        return Some(Err(EngineError));
    }

    /** Closed before the first wait, so that a drop while waiting writes no second row. */
    method Fail(error: Error, cut: bool)
      modifies this`open, this`slot, this`rows
      ensures View() == Failed(old(View()), error, cut)
    {
      var prior := open;
      open := false;
      rows := rows + [Failure(error, Ms(|buffer|))];
      if prior {
        slot := if cut then Lent else Returned;
      }
    }

    method Feed(chunk: seq<Sample>, run: Run, cut: bool) returns (r: Option<Result<bool, Error>>)
      requires Valid()
      modifies this
      ensures Valid()
      ensures View() == Fed(old(View()), chunk, run, cut, config)
      ensures !old(open) ==> r == Some(Err(StreamProtocol))
      ensures old(open) && !Accepts(old(View()), chunk, config) ==> r == Some(Err(InputTooLong))
      ensures Accepts(old(View()), chunk, config) ==>
                (r == Some(Ok(true)) <==> streaming && run.Succeeds?) && (r == Some(Ok(false)) <==> !streaming)
    {
      if !open {
        return Some(Err(StreamProtocol));
      }
      if Ms(|buffer|) + Ms(|chunk|) > config.CapMs() {
        Fail(InputTooLong, cut);
        return Some(Err(InputTooLong));
      }
      buffer := buffer + chunk;
      if !streaming {
        return Some(Ok(false));
      }
      r := RunOnEngine(run);
      if r.Some? && r.value.Err? {
        Fail(r.value.error, cut);
      }
    }

    method Finalize(ending: Ending) returns (r: Option<Result<bool, Error>>)
      requires Valid()
      modifies this
      ensures Valid()
      ensures View() == Finalized(old(View()), ending, config)
      ensures r == Some(Ok(true)) <==> Completes(old(View()), Call.Finalize(ending))
    {
      if !open {
        live := false;
        return Some(Err(StreamProtocol));
      }
      var durationMs := Ms(|buffer|);
      if ending.TimedOut? {
        open, slot := false, Lent;
        r := Some(Err(InferenceTimeout));
      } else {
        r := RunOnEngine(ending.run);
      }
      live := false;
      if r.None? {
        return;
      }
      if open {
        open, slot := false, Returned;
      }
      if r.value.Ok? {
        rows := rows + [Completed(durationMs, if config.saveAudio then Some(buffer) else None)];
        buffer := [];
      } else {
        rows := rows + [Failure(r.value.error, durationMs)];
      }
    }

    method Abort(error: Error, cut: bool)
      requires Valid()
      modifies this
      ensures Valid()
      ensures View() == Step(old(View()), Call.Abort(error, cut), config)
    {
      if open {
        Fail(error, cut);
      }
      live := false;
    }

    /** Dropped mid-session: the client went away. */
    method Drop(runtime: bool)
      requires Valid()
      modifies this
      ensures Valid()
      ensures View() == Released(old(View()), runtime)
    {
      live := false;
      if !open {
        return;
      }
      if runtime {
        rows := rows + [Disconnected(Ms(|buffer|))];
      }
      open, slot := false, Returned;
    }
  }
}
