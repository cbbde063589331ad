/** The records of the scheduler as values: guards, ALT descriptors, channel
    cells, interrupt channels and queued timeouts. Processes and channels are
    named by their position in the tables of the running system. */
module Types {

  datatype Option<+T> = None | Some(value: T)

  type Pid = nat

  /** What a guard waits for. `dest` and `src` are positions among the variables
      of the process that owns the guard. */
  datatype Kind =
    | ChanIn(chan: nat, dest: nat)
    | ChanOut(chan: nat, src: nat)
    | Skip
    | Timeout(time: nat)
    | Interrupt(line: nat, into: Option<nat>)

  datatype Guard = Guard(kind: Kind, active: bool)

  /** A process's ALT record; `pri` tells ALT PRI from fair ALT. */
  datatype Alternation = Alternation(guards: seq<Guard>, index: nat, count: int, pri: bool)

  /** A source address left in a channel: one variable of one process. */
  datatype Address = Address(proc: Pid, variable: nat)

  datatype Cell = Cell(waiting: Option<Pid>, src: Option<Address>)

  datatype Line = Line(waiting: Option<Pid>, count: nat)

  datatype Entry = Entry(time: nat, proc: Pid)

  /** Everything enabling and disabling an ALT can touch. */
  datatype World = World(cells: seq<Cell>, lines: seq<Line>, timers: seq<Entry>)

  /** Scheduling states of a process. */
  datatype PState = INITIAL | QUIESCENT | ENABLING | WAITING | READY | DONE
}
