/** Preemption: schedule and readyProcessIfNecessary calling one another, for
    processes of any priorities. What a process's ALT and code do in each
    iteration is given by a script; interrupts do not occur. */
module Nesting {
  import opened Types
  import opened ReadyQueues
  import opened Sequences

  /** One iteration: whether enabling finds a guard ready, the partner it or
      disabling returns, and whether the process's code terminates it. */
  datatype Choice = Choice(ready: bool, partner: Process?, done: bool)

  /** A run of a process's code, and whether it terminated the process. */
  datatype Ran = Ran(proc: Process, done: bool)

  /** Whether an iteration that finds the process in state `was` runs its code. */
  predicate Due(was: PState, ready: bool) {
    was == INITIAL || was == READY || (was == QUIESCENT && ready)
  }

  /** The state in which the iteration leaves a process that nobody else readies. */
  function Next(was: PState, c: Choice): PState {
    match was
    case INITIAL => QUIESCENT
    case QUIESCENT => if !c.ready then WAITING else if c.done then DONE else QUIESCENT
    case READY => if c.done then DONE else QUIESCENT
    case _ => was
  }

  class Machine {
    const queues: ReadyQueues
    var current: Process
    ghost var history: seq<Ran>

    constructor (queues: ReadyQueues, idle: Process)
      requires queues.Valid() && idle in queues.universe && idle.pri == 0
      ensures this.queues == queues && current == idle && Valid() && history == []
    {
      this.queues, current, history := queues, idle, [];
    }

    ghost predicate Valid()
      reads this, queues, queues.head, queues.tail, queues.universe`next, queues.universe`pri
    {
      queues.Valid() && current in queues.universe && current.pri < LEVELS
    }

    /** Partners are application processes. */
    ghost predicate Fits(script: seq<Choice>)
      reads queues.universe`pri
    {
      forall i :: 0 <= i < |script| && script[i].partner != null ==>
        script[i].partner in queues.universe && 1 <= script[i].partner.pri < LEVELS
    }

    ghost predicate NothingAbove(pri: int)
      reads queues`q
    {
      |queues.q| == LEVELS && forall l: nat :: pri < l < LEVELS ==> queues.q[l] == []
    }

    /** The current process's own code; nothing of higher priority is ready. */
    method RunCode(done: bool)
      requires Valid() && NothingAbove(current.pri)
      modifies current`state, `history
      ensures Valid() && current.state == if done then DONE else old(current.state)
      ensures history == old(history) + [Ran(current, done)]
    {
      history := history + [Ran(current, done)];
      if done {
        current.state := DONE;
      }
    }

    /** All these runs are of processes above priority `pri`. */
    ghost predicate AllAbove(ran: seq<Ran>, pri: int)
      reads queues.universe`pri
    {
      forall i :: 0 <= i < |ran| ==> ran[i].proc in queues.universe && ran[i].proc.pri > pri
    }

    /** An application process above priority `base` is queued. */
    ghost predicate Waiting(base: int)
      reads queues`q
    {
      exists l: nat :: 1 <= l < |queues.q| && base < l && queues.q[l] != []
    }

    ghost predicate NoPartners(script: seq<Choice>) {
      forall i :: 0 <= i < |script| ==> script[i].partner == null
    }

    /** Of the processes queued above `base` in `start`, each has been run until it
        waited or terminated, is still queued, or is `proc`. */
    ghost predicate Served(start: seq<seq<Process>>, base: int, proc: Process?)
      requires |start| == LEVELS
      reads queues`q, queues.universe`state
    {
      |queues.q| == LEVELS && forall l: nat, i :: base < l < LEVELS && 0 <= i < |start[l]| ==>
        start[l][i] in queues.universe &&
        (start[l][i].state in {WAITING, DONE} || start[l][i] == proc || start[l][i] in queues.q[l])
    }

    /** The scheduler entered above priority `base`. `finished` tells that it
        returned, which it does unless the script ends or the idle process takes over;
        `ran` lists the runs of code in it and in the schedulers nested in it, and
        `deep` is how many schedulers were active at most. */
    method Schedule(base: int, script: seq<Choice>, at: nat)
      returns (finished: bool, to: nat, ghost ran: seq<Ran>, ghost deep: nat)
      requires Valid() && Fits(script) && at <= |script| && -1 <= base < LEVELS - 1
      requires base == -1 ==> queues.q[0] != []
      modifies `current, `history, queues, queues.head, queues.tail, queues.universe`next, queues.universe`state
      ensures Valid() && at <= to <= |script|
      ensures finished ==> NothingAbove(base)
      ensures !finished ==> to == |script| || (base == -1 && current.pri == 0)
      ensures history == old(history) + ran && AllAbove(ran, base)
      ensures 1 <= deep <= LEVELS - 1 - base
      ensures base >= 0 ==> queues.q[0] == old(queues.q[0])
      ensures at < |script| && old(Waiting(base)) ==> at < to
      ensures |old(queues.q)| == LEVELS && (finished && NoPartners(script) ==> Served(old(queues.q), base, null))
      decreases LEVELS - base, 0
    {
      to, ran, deep := at, [], 1;
      var proc: Process? := null;
      ghost var start := queues.q;
      StartServed(base);
      while true
        invariant Valid() && at <= to <= |script|
        invariant proc != null ==> proc == current && proc.pri > base && proc.pri >= 1 && NothingAbove(proc.pri)
        invariant history == old(history) + ran && AllAbove(ran, base)
        invariant 1 <= deep <= LEVELS - 1 - base
        invariant base == -1 ==> queues.q[0] != []
        invariant base >= 0 ==> queues.q[0] == old(queues.q[0])
        invariant at < to || (proc == null && queues.q == start)
        invariant NoPartners(script) ==> Served(start, base, proc)
        decreases |script| - to
      {
        if proc == null {
          proc := Pick(base, start);
          if proc == null {
            finished := true;
            return;
          }
        }
        if to == |script| || proc.pri == 0 {
          finished := false;
          return;
        }
        proc, finished, to, ran, deep := Round(proc, script, to, start, base, old(history), ran, deep);
        if !finished {
          return;
        }
      }
    }

    lemma StartServed(base: int)
      requires Valid() && -1 <= base
      ensures Served(queues.q, base, null)
    {
      forall l: nat, i | base < l < LEVELS && 0 <= i < |queues.q[l]| ensures queues.q[l][i] in queues.universe {
        assert queues.ListOk(l);
        assert queues.q[l][i] in queues.q[l];
      }
    }

    /** A round of the loop: an iteration, which goes on serving the processes of
        `start`, and adds its runs and depth to those since `entry`. */
    method Round(proc: Process, script: seq<Choice>, at: nat, ghost start: seq<seq<Process>>, ghost base: int,
                 ghost entry: seq<Ran>, ghost before: seq<Ran>, ghost deepest: nat)
      returns (proc': Process?, finished: bool, to: nat, ghost ran: seq<Ran>, ghost deep: nat)
      requires Valid() && Fits(script) && at < |script| && proc == current && NothingAbove(proc.pri)
      requires |start| == LEVELS && -1 <= base < proc.pri
      requires history == entry + before && AllAbove(before, base) && 1 <= deepest <= LEVELS - 1 - base
      modifies `current, `history, queues, queues.head, queues.tail, queues.universe`next, queues.universe`state
      ensures Valid() && at < to <= |script|
      ensures finished ==> NothingAbove(proc.pri) && (proc' != null ==> proc' == proc == current)
      ensures !finished ==> to == |script|
      ensures history == entry + ran && AllAbove(ran, base)
      ensures 1 <= deep <= LEVELS - 1 - base
      ensures queues.q[0] == old(queues.q[0])
      ensures NoPartners(script) && old(Served(start, base, proc)) ==> Served(start, base, proc')
      decreases LEVELS - current.pri, 3
    {
      proc', finished, to, ran, deep := Iterate(proc, script, at);
      ran, deep := before + ran, if deep + 1 > deepest then deep + 1 else deepest;
    }

    /** One iteration with process `proc`: what is left for the loop to hold. Code that
        is due runs once, after the schedulers nested in the iteration and with the
        outcome given; a suspended process's code does not run meanwhile. */
    method Iterate(proc: Process, script: seq<Choice>, at: nat)
      returns (proc': Process?, finished: bool, to: nat, ghost ran: seq<Ran>, ghost deep: nat)
      requires Valid() && Fits(script) && at < |script| && proc == current && NothingAbove(proc.pri)
      modifies `current, `history, queues, queues.head, queues.tail, queues.universe`next, queues.universe`state
      ensures Valid() && at < to <= |script|
      ensures finished ==> NothingAbove(proc.pri) && (proc' != null ==> proc' == proc == current)
      ensures finished ==> (proc' == null <==> proc.state in {DONE, WAITING})
      ensures !finished ==> to == |script|
      ensures history == old(history) + ran
      ensures finished && Due(old(proc.state), script[at].ready) ==>
                |ran| > 0 && ran[|ran| - 1] == Ran(proc, script[at].done) && AllAbove(ran[..|ran| - 1], proc.pri)
      ensures !finished || !Due(old(proc.state), script[at].ready) ==> AllAbove(ran, proc.pri)
      ensures AllAbove(ran, proc.pri - 1)
      ensures deep + 1 <= LEVELS - proc.pri
      ensures queues.q[0] == old(queues.q[0])
      ensures script[at].partner == null || old(proc.state) !in {QUIESCENT, READY} ==>
                && finished && to == at + 1 && proc.state == Next(old(proc.state), script[at]) && queues.q == old(queues.q)
                && forall p :: p in queues.universe && p != proc ==> p.state == old(p.state)
      decreases LEVELS - current.pri, 2
    {
      proc', finished, to, ran, deep := proc, true, at + 1, [], 0;
      var c := script[at];
      if proc.state == INITIAL { ran := [Ran(proc, c.done)]; }
      var execute, partner := Advance(c);
      if partner != null {
        finished, to, ran, deep := ReadyProcessIfNecessary(partner, script, to);
      }
      if finished {
        if execute {
          RunCode(c.done);
          ran := ran + [Ran(proc, c.done)];
        }
        if proc.state == DONE || proc.state == WAITING {
          proc' := null;
        }
      }
    }

    /** The first process of the highest level above `base`, null if all these are empty. */
    method Pick(base: int, ghost start: seq<seq<Process>>) returns (proc: Process?)
      requires Valid() && -1 <= base && |start| == LEVELS && (base == -1 ==> queues.q[0] != [])
      modifies `current, queues, queues.head, queues.tail
      ensures Valid()
      ensures proc == null ==> NothingAbove(base) && queues.q == old(queues.q)
      ensures proc == null ==> old(Served(start, base, null)) ==> Served(start, base, null)
      ensures proc == null ==> !old(Waiting(base))
      ensures proc != null ==> proc == current && proc.pri > base && NothingAbove(proc.pri)
      ensures proc != null && old(Waiting(base)) ==> proc.pri >= 1
      ensures proc != null && proc.pri >= 1 ==> queues.q[0] == old(queues.q[0])
      ensures proc != null ==> old(Served(start, base, null)) ==> Served(start, base, proc)
      ensures base >= 0 ==> queues.q[0] == old(queues.q[0])
    {
      var highest := queues.Highest();
      proc := null;
      if highest > base {
        proc := TakeHighest(highest, start, base);
      }
    }

    method TakeHighest(highest: nat, ghost start: seq<seq<Process>>, ghost base: int) returns (proc: Process)
      requires Valid() && highest < LEVELS && queues.q[highest] != [] && NothingAbove(highest) && |start| == LEVELS
      modifies `current, queues, queues.head, queues.tail
      ensures Valid() && current == proc && proc.pri == highest && NothingAbove(highest)
      ensures highest > 0 ==> queues.q[0] == old(queues.q[0])
      ensures old(Served(start, base, null)) ==> Served(start, base, proc)
    {
      assert queues.ListOk(highest);
      assert queues.q[highest][0] in queues.q[highest];
      var p := queues.Take(highest);
      proc := p;
      current := proc;
    }

    /** The part of an iteration before the partner is readied: the new state of the
        current process, whether its code is due, and its partner. */
    method Advance(c: Choice) returns (execute: bool, partner: Process?)
      requires Valid() && NothingAbove(current.pri)
      modifies current`state, `history
      ensures history == if old(current.state) == INITIAL then old(history) + [Ran(current, c.done)] else old(history)
      ensures old(current.state) !in {INITIAL, QUIESCENT, READY} ==> current.state == old(current.state) && !execute
      ensures Valid() && partner == (if old(current.state) in {QUIESCENT, READY} then c.partner else null)
      ensures old(current.state) == INITIAL ==> current.state == QUIESCENT && !execute
      ensures old(current.state) == QUIESCENT ==> current.state == (if c.ready then QUIESCENT else WAITING) && execute == c.ready
      ensures old(current.state) == READY ==> current.state == QUIESCENT && execute
    {
      execute, partner := false, null;
      if current.state == INITIAL {
        RunCode(c.done);
        current.state := QUIESCENT;
      } else if current.state == QUIESCENT {
        current.state := ENABLING;
        partner := c.partner;
        if current.state == ENABLING {
          current.state := if c.ready then READY else WAITING;
        }
        if current.state == READY {
          execute := true;
          current.state := QUIESCENT;
        }
      } else if current.state == READY {
        partner := c.partner;
        execute := true;
        current.state := QUIESCENT;
      }
    }

    /** Makes a process ready and, if its priority is higher than the current
        process's, runs the scheduler above that at once; the current process is
        the same afterwards and again of the highest priority that is ready. */
    method ReadyProcessIfNecessary(partner: Process, script: seq<Choice>, at: nat)
      returns (finished: bool, to: nat, ghost ran: seq<Ran>, ghost deep: nat)
      requires Valid() && Fits(script) && at <= |script| && partner in queues.universe && 1 <= partner.pri < LEVELS
      requires NothingAbove(current.pri)
      modifies `current, `history, queues, queues.head, queues.tail, queues.universe`next, queues.universe`state
      ensures Valid() && at <= to <= |script|
      ensures finished ==> current == old(current) && NothingAbove(current.pri)
      ensures !finished ==> to == |script|
      ensures history == old(history) + ran && AllAbove(ran, old(current).pri)
      ensures deep + 1 <= LEVELS - old(current).pri
      ensures queues.q[0] == old(queues.q[0])
      ensures partner.pri <= old(current).pri || old(partner.state) == ENABLING ==>
                && finished && to == at && partner.state == READY
                && queues.q == if old(partner.state) == ENABLING then old(queues.q)
                               else old(queues.q)[partner.pri := LinkLast(old(queues.q)[partner.pri], partner)]
      ensures partner.pri > old(current).pri && old(partner.state) != ENABLING ==>
                && (at < |script| ==> at < to)
                && (finished && NoPartners(script) ==> partner.state in {WAITING, DONE})
      decreases LEVELS - current.pri, 1
    {
      finished, to, ran, deep := true, at, [], 0;
      if partner.state == ENABLING {
        partner.state := READY;
      } else {
        partner.state := READY;
        queues.Append(partner);
        if partner.pri > current.pri {
          assert queues.q[partner.pri][0] == partner;
          var prev := current;
          finished, to, ran, deep := Schedule(prev.pri, script, at);
          if finished {
            current := prev;
          }
        }
      }
    }
  }
}
