/** The single-writer store as a transition system: callers of doWrite, callers of Close, and writerLoop.

    A hand-off on the unbuffered channel `writes` is one step of the caller and the writer together.
    `ctx.Err()` may turn non-nil at any moment, and the database may refuse any operation, so both are
    choices.  A step that would panic sets `panicked`. */
module Store {

  // What doWrite returns: ctx.Err() before the hand-off, ErrClosed, what the operation returned
  // (ok = no error), or ctx.Err() while waiting for the reply.
  datatype Result = CtxEarly | ErrClosed | Own(ok: bool) | CtxLate

  // `Checking` looks at ctx; `Handing` is blocked on the send, `Handed` past it, both with mu held.
  datatype CallPc = Idle | Checking | Wanting | Locked | Handing | Handed | Waiting | Returned(result: Result)

  // `WasClosed` found stopped set; the others made it so.
  datatype ClosePc = CIdle | CLocked | WasClosed | CStopped | CClosed | CWaiting | CReturned

  datatype Writer = Ranging | Executing(call: nat) | Replying(call: nat, ok: bool) | Gone

  datatype Lock = Free | ByCall(call: nat) | ByClose(close: nat)

  datatype Executed = Executed(call: nat, ok: bool)

  // History, in order: calls starting, operations executing, calls returning.
  datatype Event = Began(call: nat) | Ran(call: nat, ok: bool) | Ended(call: nat, result: Result)

  datatype State = State(
    lock: Lock,
    stopped: bool,
    closed: bool,       // the channel `writes`
    writer: Writer,
    calls: seq<CallPc>,
    replies: seq<seq<bool>>,  // op.done, with room for one
    closers: seq<ClosePc>,
    panicked: bool,
    handed: seq<nat>,
    ran: seq<seq<bool>>,      // what each operation returned, each time it ran
    log: seq<Executed>,
    events: seq<Event>)

  datatype CallStep = Begin | DieEarly | PassCtx | Acquire | SeeStopped | Hand | HandOff | Release | TakeReply | DieLate

  datatype CloseStep = CAcquire | SeeStoppedC | Stop | CloseWrites | CRelease | SeeDone

  datatype WriterStep = Run(ok: bool) | Reply | Leave

  datatype Action = Call(c: nat, call: CallStep) | Close(d: nat, close: CloseStep) | Write(write: WriterStep)

  /** Open: the writer ranges over an empty channel; `calls` writes and `closers` Closes are to come. */
  function Init(calls: nat, closers: nat): State {
    State(Free, false, false, Ranging, seq(calls, _ => Idle), seq(calls, _ => []), seq(closers, _ => CIdle),
          false, [], seq(calls, _ => []), [], [])
  }

  predicate CallEnabled(s: State, c: nat, x: CallStep) {
    c < |s.calls| && |s.replies| == |s.calls| &&
    var pc := s.calls[c];
    match x
    case Begin => pc == Idle
    case DieEarly => pc == Checking
    case PassCtx => pc == Checking
    case Acquire => pc == Wanting && s.lock == Free
    case SeeStopped => pc == Locked && s.stopped
    case Hand => pc == Locked && !s.stopped
    case HandOff => pc == Handing && (s.closed || s.writer == Ranging)
    case Release => pc == Handed
    case TakeReply => pc == Waiting && s.replies[c] != []
    case DieLate => pc == Waiting
  }

  predicate CloseEnabled(s: State, d: nat, x: CloseStep) {
    d < |s.closers| &&
    var pc := s.closers[d];
    match x
    case CAcquire => pc == CIdle && s.lock == Free
    case SeeStoppedC => pc == CLocked && s.stopped
    case Stop => pc == CLocked && !s.stopped
    case CloseWrites => pc == CStopped
    case CRelease => pc == CClosed
    case SeeDone => pc == CWaiting && s.writer == Gone
  }

  predicate WriteEnabled(s: State, x: WriterStep) {
    |s.replies| == |s.calls| &&
    match x
    case Run(_) => s.writer.Executing? && s.writer.call < |s.ran|
    case Reply => s.writer.Replying? && s.writer.call < |s.replies| && |s.replies[s.writer.call]| < 1
    case Leave => s.writer == Ranging && s.closed
  }

  predicate Enabled(s: State, a: Action) {
    match a
    case Call(c, x) => CallEnabled(s, c, x)
    case Close(d, x) => CloseEnabled(s, d, x)
    case Write(x) => WriteEnabled(s, x)
  }

  function SetCall(s: State, c: nat, pc: CallPc): State
    requires c < |s.calls|
  {
    s.(calls := s.calls[c := pc])
  }

  function Return(s: State, c: nat, r: Result): State
    requires c < |s.calls|
  {
    SetCall(s, c, Returned(r)).(events := s.events + [Ended(c, r)])
  }

  function SetClose(s: State, d: nat, pc: ClosePc): State
    requires d < |s.closers|
  {
    s.(closers := s.closers[d := pc])
  }

  function CallApply(s: State, c: nat, x: CallStep): State
    requires CallEnabled(s, c, x)
  {
    match x
    case Begin => SetCall(s, c, Checking).(events := s.events + [Began(c)])
    case DieEarly => Return(s, c, CtxEarly)
    case PassCtx => SetCall(s, c, Wanting)
    case Acquire => SetCall(s, c, Locked).(lock := ByCall(c))
    case SeeStopped => Return(s, c, ErrClosed).(lock := Free)
    case Hand => SetCall(s, c, Handing)
    case HandOff =>
      if s.closed then s.(panicked := true)
      else SetCall(s, c, Handed).(writer := Executing(c), handed := s.handed + [c])
    case Release => SetCall(s, c, Waiting).(lock := Free)
    case TakeReply => Return(s, c, Own(s.replies[c][0])).(replies := s.replies[c := s.replies[c][1..]])
    case DieLate => Return(s, c, CtxLate)
  }

  function CloseApply(s: State, d: nat, x: CloseStep): State
    requires CloseEnabled(s, d, x)
  {
    match x
    case CAcquire => SetClose(s, d, CLocked).(lock := ByClose(d))
    case SeeStoppedC => SetClose(s, d, WasClosed).(lock := Free)
    case Stop => SetClose(s, d, CStopped).(stopped := true)
    case CloseWrites => if s.closed then s.(panicked := true) else SetClose(s, d, CClosed).(closed := true)
    case CRelease => SetClose(s, d, CWaiting).(lock := Free)
    case SeeDone => SetClose(s, d, CReturned)
  }

  function WriteApply(s: State, x: WriterStep): State
    requires WriteEnabled(s, x)
  {
    match x
    case Run(ok) =>
      var c := s.writer.call;
      s.(writer := Replying(c, ok), ran := s.ran[c := s.ran[c] + [ok]], log := s.log + [Executed(c, ok)],
          events := s.events + [Ran(c, ok)])
    case Reply =>
      var c := s.writer.call;
      s.(writer := Ranging, replies := s.replies[c := s.replies[c] + [s.writer.ok]])
    case Leave => s.(writer := Gone)
  }

  function Apply(s: State, a: Action): State
    requires Enabled(s, a)
  {
    match a
    case Call(c, x) => CallApply(s, c, x)
    case Close(d, x) => CloseApply(s, d, x)
    case Write(x) => WriteApply(s, x)
  }

  ghost predicate Reaches(s0: State, run: seq<Action>, s: State)
    decreases |run|
  {
    if run == [] then s == s0
    else Enabled(s0, run[0]) && Reaches(Apply(s0, run[0]), run[1..], s)
  }
}
