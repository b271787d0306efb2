/** The peripheral actions of the rev1Pro board (cats_rev1Pro actions.c):
    the table of action functions that the event configuration indexes,
    the argument guards of the output functions, and set_recorder_state,
    which moves the recorder between its three modes by sending commands
    to the recorder task's queue.

    The pin, servo and delay effects of the output functions are hardware
    calls and are not part of this model; what remains of them is the
    guard that decides whether they act and what they return. */
module Actions {
  /** The int16_t argument every action function takes. */
  type Int16 = x: int | -32768 <= x < 32768

  /** recorder_status_e. */
  const REC_OFF: int := 0
  const REC_FILL_QUEUE: int := 1
  const REC_WRITE_TO_FLASH: int := 2

  const NUM_ACTION_FUNCTIONS: nat := 17

  /** The functions of action_table. */
  datatype ActionFunction =
    | NoAction | OsDelay
    | HighCurrentOne | HighCurrentTwo | HighCurrentThree | HighCurrentFour | HighCurrentFive | HighCurrentSix
    | LowLevelOne | LowLevelTwo | LowLevelThree | LowLevelFour
    | ServoOne | ServoTwo | ServoThree | ServoFour
    | SetRecorderState

  /** action_table, in its order: an event's action number indexes it. */
  const ActionTable: seq<ActionFunction> :=
    [NoAction, OsDelay,
     HighCurrentOne, HighCurrentTwo, HighCurrentThree, HighCurrentFour, HighCurrentFive, HighCurrentSix,
     LowLevelOne, LowLevelTwo, LowLevelThree, LowLevelFour,
     ServoOne, ServoTwo, ServoThree, ServoFour,
     SetRecorderState]

  /** The action number of a function. */
  function ActionNumber(f: ActionFunction): (k: nat)
    ensures k < |ActionTable| && ActionTable[k] == f
  {
    match f
    case NoAction => 0
    case OsDelay => 1
    case HighCurrentOne => 2
    case HighCurrentTwo => 3
    case HighCurrentThree => 4
    case HighCurrentFour => 5
    case HighCurrentFive => 6
    case HighCurrentSix => 7
    case LowLevelOne => 8
    case LowLevelTwo => 9
    case LowLevelThree => 10
    case LowLevelFour => 11
    case ServoOne => 12
    case ServoTwo => 13
    case ServoThree => 14
    case ServoFour => 15
    case SetRecorderState => 16
  }

  /** The table has NUM_ACTION_FUNCTIONS entries, lists every function
      exactly once, and ends with set_recorder_state. */
  lemma ActionTableIsANumbering()
    ensures |ActionTable| == NUM_ACTION_FUNCTIONS
    ensures forall k :: 0 <= k < |ActionTable| ==> ActionNumber(ActionTable[k]) == k
    ensures ActionTable[NUM_ACTION_FUNCTIONS - 1] == SetRecorderState
  {
  }

  // ---------------------------------------------------------------------------
  // The output guards
  // ---------------------------------------------------------------------------

  /** What an output function needs of its argument. */
  datatype ArgumentKind = Nothing | Ticks | PinState | ServoAngle

  function KindOf(f: ActionFunction): ArgumentKind
    requires f != SetRecorderState
  {
    match f
    case NoAction => Nothing
    case OsDelay => Ticks
    case ServoOne | ServoTwo | ServoThree | ServoFour => ServoAngle
    case _ => PinState
  }

  /** The argument range of each kind: no argument suits a missing action,
      a delay needs a positive tick count, a pin a state of 0 or 1, a servo
      an angle of 0 to 180 degrees. */
  predicate InRange(kind: ArgumentKind, arg: Int16) {
    match kind
    case Nothing => false
    case Ticks => arg > 0
    case PinState => arg == 0 || arg == 1
    case ServoAngle => 0 <= arg <= 180
  }

  /** The return value of an output function: whether it accepted the
      argument and acted. */
  function Accepts(f: ActionFunction, arg: Int16): (ok: bool)
    requires f != SetRecorderState
    ensures ok <==> InRange(KindOf(f), arg)
  {
    match f
    case NoAction => false
    case OsDelay => arg > 0
    case HighCurrentOne | HighCurrentTwo | HighCurrentThree => arg == 0 || arg == 1
    case HighCurrentFour | HighCurrentFive | HighCurrentSix => arg == 0 || arg == 1
    case LowLevelOne | LowLevelTwo | LowLevelThree | LowLevelFour => arg == 0 || arg == 1
    case ServoOne | ServoTwo | ServoThree | ServoFour => 0 <= arg <= 180
  }

  /** Every accepted argument of an output is a pin state or an angle in
      range, or a positive delay; the empty action accepts nothing. */
  lemma AcceptedArgumentsAreBounded(f: ActionFunction, arg: Int16)
    requires f != SetRecorderState && f != OsDelay && Accepts(f, arg)
    ensures f != NoAction && 0 <= arg <= 180
  {
  }

  // ---------------------------------------------------------------------------
  // set_recorder_state
  // ---------------------------------------------------------------------------

  /** rec_cmd_type_e; Invalid marks "no command". */
  datatype Command = Invalid | FillQueue | FillQueueStop | Write | WriteStop

  predicate IsStatus(s: int) {
    REC_OFF <= s <= REC_WRITE_TO_FLASH
  }

  /** The recorder mode after a command, as the commands' names promise:
      filling starts from off, writing starts from off or from filling,
      each stop ends its own mode; any other command finds the recorder in
      the wrong mode (None). */
  function AfterCommand(mode: int, cmd: Command): (next: Option<int>)
  {
    match cmd
    case FillQueue => if mode == REC_OFF then Some(REC_FILL_QUEUE) else None
    case Write => if mode == REC_OFF || mode == REC_FILL_QUEUE then Some(REC_WRITE_TO_FLASH) else None
    case FillQueueStop => if mode == REC_FILL_QUEUE then Some(REC_OFF) else None
    case WriteStop => if mode == REC_WRITE_TO_FLASH then Some(REC_OFF) else None
    case Invalid => None
  }

  /** The mode after a sequence of commands, if each finds the mode it
      expects. */
  function AfterCommands(mode: int, cmds: seq<Command>): Option<int>
    decreases |cmds|
  {
    if cmds == [] then Some(mode)
    else
      match AfterCommand(mode, cmds[0])
      case None => None
      case Some(next) => AfterCommands(next, cmds[1..])
  }

  datatype Option<T> = None | Some(value: T)

  /** The command sent before the status changes: leaving write-to-flash
      for off or fill-queue stops writing first. */
  function EarlyCommands(from: int, to: int): seq<Command> {
    if from == REC_WRITE_TO_FLASH && (to == REC_OFF || to == REC_FILL_QUEUE) then [WriteStop] else []
  }

  /** rec_cmd at the end of the switch, as written: in the write-to-flash
      case it still holds WRITE_STOP when the request is off. */
  function FinalCommandAsWritten(from: int, to: int): Command {
    if from == REC_OFF then
      (if to == REC_FILL_QUEUE then FillQueue else if to == REC_WRITE_TO_FLASH then Write else Invalid)
    else if from == REC_FILL_QUEUE then
      (if to == REC_OFF then FillQueueStop else if to == REC_WRITE_TO_FLASH then Write else Invalid)
    else if to == REC_OFF || to == REC_FILL_QUEUE then
      (if to == REC_FILL_QUEUE then FillQueue else WriteStop)
    else Invalid
  }

  /** rec_cmd at the end of the switch once the early WRITE_STOP is not
      sent a second time. */
  function FinalCommand(from: int, to: int): Command {
    if from == REC_WRITE_TO_FLASH && to == REC_OFF then Invalid else FinalCommandAsWritten(from, to)
  }

  function Sent(cmd: Command): seq<Command> {
    if cmd == Invalid then [] else [cmd]
  }

  /** The commands set_recorder_state sends, as written. */
  function IssuedAsWritten(from: int, to: int): seq<Command> {
    EarlyCommands(from, to) + Sent(FinalCommandAsWritten(from, to))
  }

  /** The commands set_recorder_state sends, corrected. */
  function Issued(from: int, to: int): (cmds: seq<Command>)
    requires IsStatus(from) && IsStatus(to)
    ensures |cmds| <= 2 && Invalid !in cmds
    ensures cmds == [] <==> from == to
  {
    EarlyCommands(from, to) + Sent(FinalCommand(from, to))
  }

  /** The commands sent for a request take the recorder task from the old
      status to the requested one, each finding the mode it expects. */
  lemma IssuedCommandsReachRequest(from: int, to: int)
    requires IsStatus(from) && IsStatus(to)
    ensures AfterCommands(from, Issued(from, to)) == Some(to)
  {
    var cmds := Issued(from, to);
    if |cmds| == 1 {
      assert cmds[1..] == [];
    } else if |cmds| == 2 {
      assert cmds[1..] == [cmds[1]] && [cmds[1]][1..] == [];
      assert cmds == [WriteStop, FillQueue];
    }
  }

  /** As written, leaving write-to-flash for off sends WRITE_STOP twice,
      and the second one reaches a recorder that is already off. */
  lemma WriteStopSentTwice()
    ensures IssuedAsWritten(REC_WRITE_TO_FLASH, REC_OFF) == [WriteStop, WriteStop]
    ensures AfterCommands(REC_WRITE_TO_FLASH, IssuedAsWritten(REC_WRITE_TO_FLASH, REC_OFF)) == None
    ensures Issued(REC_WRITE_TO_FLASH, REC_OFF) == [WriteStop]
  {
    assert [WriteStop, WriteStop][1..] == [WriteStop];
  }

  /** Everywhere else the source sends what the correction sends. */
  lemma AsWrittenDiffersOnlyWhenStoppingWrite(from: int, to: int)
    requires IsStatus(from) && IsStatus(to)
    ensures IssuedAsWritten(from, to) == Issued(from, to) <==> !(from == REC_WRITE_TO_FLASH && to == REC_OFF)
  {
  }

  /** The command queue with room for capacity entries; a command that
      finds it full is dropped (the put times out and the error is only
      logged). */
  function Enqueued(queue: seq<Command>, cmds: seq<Command>, capacity: nat): (q: seq<Command>)
    ensures |q| <= |queue| + |cmds|
    decreases |cmds|
  {
    if cmds == [] then queue
    else Enqueued(if |queue| < capacity then queue + [cmds[0]] else queue, cmds[1..], capacity)
  }

  /** The recorder status global and the recorder command queue. */
  class Recorder {
    var status: int
    var queue: seq<Command>
    const capacity: nat

    /** Recording off and an empty queue. */
    constructor (capacity: nat)
      ensures status == REC_OFF && queue == [] && this.capacity == capacity
    {
      status := REC_OFF;
      queue := [];
      this.capacity := capacity;
    }

    /** osMessageQueuePut: append unless the queue is full. */
    method Put(cmd: Command)
      modifies this`queue
      ensures queue == Enqueued(old(queue), [cmd], capacity)
    {
      if |queue| < capacity {
        queue := queue + [cmd];
      }
    }

    /** set_recorder_state: a request outside the three modes, or a
        current status outside them, returns false and changes nothing;
        otherwise the commands for the transition are sent, the status
        becomes the request and the result is true, whether or not the
        queue took the commands. */
    method SetRecorderState(state: Int16) returns (ok: bool)
      modifies this`status, this`queue
      ensures ok <==> IsStatus(state) && IsStatus(old(status))
      ensures ok ==> status == state && queue == Enqueued(old(queue), Issued(old(status), state), capacity)
      ensures !ok ==> status == old(status) && queue == old(queue)
    {
      var new_rec_state := state;
      if new_rec_state < REC_OFF || new_rec_state > REC_WRITE_TO_FLASH {
        return false;
      }
      var rec_cmd := Invalid;
      if status == REC_OFF {
        if new_rec_state == REC_FILL_QUEUE {
          rec_cmd := FillQueue;
        } else if new_rec_state == REC_WRITE_TO_FLASH {
          rec_cmd := Write;
        }
      } else if status == REC_FILL_QUEUE {
        if new_rec_state == REC_OFF {
          rec_cmd := FillQueueStop;
        } else if new_rec_state == REC_WRITE_TO_FLASH {
          rec_cmd := Write;
        }
      } else if status == REC_WRITE_TO_FLASH {
        if new_rec_state == REC_OFF || new_rec_state == REC_FILL_QUEUE {
          Put(WriteStop);
          if new_rec_state == REC_FILL_QUEUE {
            rec_cmd := FillQueue;
          }
        }
      } else {
        return false;
      }
      ghost var from := old(status);
      status := new_rec_state;
      if rec_cmd != Invalid {
        Put(rec_cmd);
      }
      assert rec_cmd == FinalCommand(from, state);
      ok := true;
    }
  }
}
