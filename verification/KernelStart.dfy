/** Starting a program: the records of its processes and channels, and the ready
    queue with every process in it. */
module KernelStart {
  import opened Types
  import opened Sequences
  import opened ReadyQueues
  import opened TimerQueue
  import opened AltKernel
  import opened Kernel
  import opened SchedulerInv
  import Scheduler

  /** The process record of each process, with its starting variables. */
  ghost predicate Started(procs: seq<Process>, vars: seq<seq<int>>, level: nat)
    reads procs`pri, procs`state, procs`vars
  {
    |procs| <= |vars| && forall i :: 0 <= i < |procs| ==>
      procs[i].id == i && procs[i].pri == level && procs[i].state == INITIAL && procs[i].vars == vars[i]
  }

  method MakeProcesses(vars: seq<seq<int>>, level: nat) returns (procs: seq<Process>)
    ensures |procs| == |vars| && Started(procs, vars, level) && forall i :: 0 <= i < |procs| ==> fresh(procs[i])
  {
    procs := [];
    while |procs| < |vars|
      invariant Started(procs, vars, level) && forall i :: 0 <= i < |procs| ==> fresh(procs[i])
      decreases |vars| - |procs|
    {
      var proc := new Process(|procs|, level, vars[|procs|]);
      procs := procs + [proc];
    }
  }

  ghost predicate Initialised(chans: seq<Channel>)
    reads chans
  {
    && (forall c :: 0 <= c < |chans| ==> chans[c].waiting == null && chans[c].src == None)
    && (forall c, d :: 0 <= c < d < |chans| ==> chans[c] != chans[d])
  }

  method MakeChannels(n: nat) returns (chans: seq<Channel>)
    ensures |chans| == n && Initialised(chans) && forall c :: 0 <= c < n ==> fresh(chans[c])
  {
    chans := [];
    while |chans| < n
      invariant |chans| <= n && Initialised(chans) && forall c :: 0 <= c < |chans| ==> fresh(chans[c])
      decreases n - |chans|
    {
      var chan := new Channel();
      chans := chans + [chan];
    }
  }

  method MakeRecords(vars: seq<seq<int>>, channels: nat, level: nat) returns (alts: Channels)
    requires |vars| > 0
    ensures alts.Valid() && alts.lines == [] && alts.timers.View().queue == []
    ensures Started(alts.procs, vars, level) && |alts.procs| == |vars| && Initialised(alts.chans) && |alts.chans| == channels
    ensures forall i :: 0 <= i < |vars| ==> fresh(alts.procs[i])
  {
    var procs := MakeProcesses(vars, level);
    var chans := MakeChannels(channels);
    var timers := new TimerQueue();
    alts := new Channels(procs, chans, [], timers, procs[0]);
  }

  /** The kernel with its queues empty. */
  method MakeKernel(vars: seq<seq<int>>, channels: nat, level: nat) returns (k: Kernel)
    requires |vars| > 0 && 1 <= level < LEVELS
    ensures k.Valid() && fresh(k.queues) && fresh(k.queues.head) && fresh(k.queues.tail)
    ensures k.level == level && k.queues.q[level] == [] && Started(k.alts.procs, vars, level) && |k.alts.procs| == |vars|
    ensures Initialised(k.alts.chans) && |k.alts.chans| == channels
    ensures forall i :: 0 <= i < |vars| ==> fresh(k.alts.procs[i])
  {
    var alts := MakeRecords(vars, channels, level);
    var queues := new ReadyQueues(set p | p in alts.procs);
    k := new Kernel(alts, queues, level);
  }

  /** Every process is new, every channel empty, and the first `i` processes are queued in order. */
  predicate Queued(s: Scheduler.Sys, vars: seq<seq<int>>, channels: nat, i: nat) {
    && |s.procs| == |vars| && (forall p :: 0 <= p < |vars| ==> s.procs[p].state == INITIAL && s.procs[p].vars == vars[p])
    && |s.cells| == channels && (forall c :: 0 <= c < channels ==> s.cells[c] == Cell(None, None))
    && s.held == None && |s.ready| == i <= |vars| && forall p :: 0 <= p < i ==> s.ready[p] == p
  }

  lemma QueueNext(s: Scheduler.Sys, vars: seq<seq<int>>, channels: nat, i: nat)
    requires Queued(s, vars, channels, i) && i < |vars|
    ensures Queued(s.(ready := LinkLast(s.ready, i)), vars, channels, i + 1)
  {
    assert i !in s.ready;
  }

  lemma QueuedIsInitial(wr: Wiring, s: Scheduler.Sys, vars: seq<seq<int>>, channels: nat)
    requires ValidWiring(wr, |vars|) && channels == |wr.inputter| && Queued(s, vars, channels, |vars|)
    ensures Initial(wr, s)
  {
    forall p | 0 <= p < |s.procs| ensures p in s.ready {
      assert s.ready[p] == p;
    }
  }

  lemma MadeIsQueued(k: Kernel, vars: seq<seq<int>>)
    requires k.Valid() && k.queues.q[k.level] == [] && |k.alts.procs| == |vars|
    requires Started(k.alts.procs, vars, k.level) && Initialised(k.alts.chans)
    ensures Queued(k.View(null), vars, |k.alts.chans|, 0)
  {
  }

  /** Starts a program: its processes, of one priority, are queued in order. */
  method StartProgram(vars: seq<seq<int>>, ghost wr: Wiring, channels: nat, level: nat) returns (k: Kernel)
    requires |vars| > 0 && 1 <= level < LEVELS
    requires ValidWiring(wr, |vars|) && channels == |wr.inputter|
    ensures k.Valid() && Initial(wr, k.View(null)) && Queued(k.View(null), vars, channels, |vars|)
  {
    k := MakeKernel(vars, channels, level);
    MadeIsQueued(k, vars);
    var i := 0;
    while i < |vars|
      invariant i <= |vars| && k.Valid() && Queued(k.View(null), vars, channels, i)
    {
      QueueNext(k.View(null), vars, channels, i);
      k.LinkIn(k.alts.procs[i], null);
      i := i + 1;
    }
    QueuedIsInitial(wr, k.View(null), vars, channels);
  }
}
