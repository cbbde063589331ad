/** The scheduler loop (schedule and readyProcessIfNecessary of sched.c) for
    processes of one priority and no interrupts, one iteration at a time. What a
    process's own code does when it runs is a parameter of the iteration. */
module Scheduler {
  import opened Types
  import opened Sequences
  import opened Alt
  import AltLaws
  import opened AltChannels

  datatype Proc = Proc(state: PState, alt: Alternation, vars: seq<int>)

  /** `ready` is the ready queue; `held` is the process the loop keeps in its
      variable proc between iterations. */
  datatype Sys = Sys(procs: seq<Proc>, cells: seq<Cell>, ready: seq<Pid>, held: Option<Pid>)

  /** What running a process's code leaves: its ALT, its variables, whether it terminated. */
  datatype Outcome = Outcome(alt: Alternation, vars: seq<int>, done: bool)

  /** readyProcessIfNecessary as its text reads, assigning PROC_WAITING in the
      second test, or as its comments say, comparing with it. */
  datatype Text = Written | Intended

  // ---------- one iteration ----------

  predicate Running(s: Sys) {
    s.held.Some? || s.ready != []
  }

  function SetProc(s: Sys, p: Pid, pr: Proc): Sys
    requires p < |s.procs|
  {
    s.(procs := s.procs[p := pr])
  }

  function ReadyProcess(text: Text, s: Sys, q: Pid): Sys
    requires q < |s.procs|
  {
    var pr := s.procs[q];
    if pr.state == ENABLING then SetProc(s, q, pr.(state := READY))
    else if text.Written? || pr.state == WAITING then SetProc(s, q, pr.(state := READY)).(ready := LinkLast(s.ready, q))
    else s
  }

  function ReadyPartner(text: Text, s: Sys, partner: Option<Pid>): (s': Sys)
    ensures |s'.procs| == |s.procs| && s'.cells == s.cells && s'.held == s.held
  {
    if partner.Some? && partner.value < |s.procs| then ReadyProcess(text, s, partner.value) else s
  }

  /** The variables of the selecting process after the transfer of its selected branch. */
  function Receive(s: Sys, p: Pid, transfer: Transfer): (vars: seq<int>)
    requires p < |s.procs|
    ensures |vars| == |s.procs[p].vars|
  {
    var vars := s.procs[p].vars;
    match transfer
    case FromChannel(dest, Some(Address(q, x))) =>
      if dest < |vars| && q < |s.procs| && x < |s.procs[q].vars| then vars[dest := s.procs[q].vars[x]] else vars
    case _ => vars
  }

  predicate AltFits(pr: Proc, cells: seq<Cell>) {
    Fits(pr.alt.guards, Channels(cells)) && (pr.alt.pri || pr.alt.index < |pr.alt.guards|)
  }

  /** The cursor is where enabling an ALT leaves it. */
  predicate CursorFits(pr: Proc) {
    pr.alt.index < |pr.alt.guards| && pr.alt.count < |pr.alt.guards|
  }

  /** disable_alt, waking the partner, and the process's code. */
  function Select(text: Text, s: Sys, p: Pid, o: Outcome): (s': Sys)
    requires p < |s.procs| && AltFits(s.procs[p], s.cells) && CursorFits(s.procs[p])
    ensures |s'.procs| == |s.procs| && |s'.cells| == |s.cells|
  {
    var pr := s.procs[p];
    var d := DisableAlt(pr.alt, p, Ticks(|pr.alt.guards|), Channels(s.cells));
    var s1 := SetProc(s, p, Proc(QUIESCENT, pr.alt.(index := d.index), Receive(s, p, d.transfer))).(cells := d.world.cells);
    var s2 := ReadyPartner(text, s1, d.partner);
    var s3 := SetProc(s2, p, Proc(if o.done then DONE else QUIESCENT, o.alt, o.vars));
    if o.done then s3.(held := None) else s3
  }

  /** enable_alt, and disable_alt at once when a guard is ready. */
  function Commit(text: Text, s: Sys, p: Pid, o: Outcome): (s': Sys)
    requires p < |s.procs| && AltFits(s.procs[p], s.cells)
    ensures |s'.procs| == |s.procs| && |s'.cells| == |s.cells|
  {
    var pr := s.procs[p];
    var e := EnableAlt(pr.alt, p, Ticks(|pr.alt.guards|), Channels(s.cells));
    EnableFits(pr.alt, p, s.cells);
    var s1 := SetProc(s, p, pr.(state := if e.ready then READY else WAITING, alt := WithCursor(pr.alt, e)))
              .(cells := e.world.cells);
    if e.ready then Select(text, s1, p, o) else ReadyPartner(text, s1, e.partner).(held := None)
  }

  lemma EnableFits(alt: Alternation, p: Pid, cells: seq<Cell>)
    requires Fits(alt.guards, Channels(cells)) && (alt.pri || alt.index < |alt.guards|)
    ensures var e := EnableAlt(alt, p, Ticks(|alt.guards|), Channels(cells));
            |e.world.cells| == |cells| && e.index < |alt.guards| && e.count < |alt.guards|
  {
    var first := FirstGuard(alt);
    assert At(first, 0, |alt.guards|) == first;
    AltLaws.EnableKeepsShape(alt.guards, p, Ticks(|alt.guards|), Channels(cells), first, 0, None);
  }

  /** The process the iteration works on, and what is left in the ready queue. */
  function Current(s: Sys): Pid
    requires Running(s)
  {
    if s.held.Some? then s.held.value else s.ready[0]
  }

  function Taken(s: Sys): (s': Sys)
    requires Running(s)
    ensures s'.procs == s.procs && s'.cells == s.cells && s'.held == Some(Current(s))
  {
    if s.held.Some? then s else s.(held := Some(s.ready[0]), ready := s.ready[1..])
  }

  predicate CanStep(s: Sys) {
    && Running(s) && Current(s) < |s.procs|
    && var pr := s.procs[Current(s)];
       && (pr.state in {QUIESCENT, READY} ==> AltFits(pr, s.cells))
       && (pr.state == READY ==> CursorFits(pr))
  }

  function Step(text: Text, s: Sys, o: Outcome): (s': Sys)
    requires CanStep(s)
    ensures |s'.procs| == |s.procs| && |s'.cells| == |s.cells|
  {
    var s1, p := Taken(s), Current(s);
    match s1.procs[p].state
    case INITIAL => SetProc(s1, p, Proc(QUIESCENT, o.alt, o.vars))
    case QUIESCENT => Commit(text, s1, p, o)
    case READY => Select(text, s1, p, o)
    case WAITING => s1.(held := None)
    case DONE => s1.(held := None)
    case ENABLING => s1
  }
}
