/** The token rings as programs for the scheduler: their guards, variables and
    channels, and that a network running them is the ring. */
module RingNetwork {
  import opened Types
  import opened Alt
  import opened AltChannels
  import opened Scheduler
  import opened SchedulerInv
  import opened Network
  import Ring

  // Process 0 is the root and process p the element p - 1; process p outputs on
  // channel p. `n` is the number of elements.

  function RingWiring(n: nat): (wr: Wiring)
    ensures |wr.inputter| == |wr.outputter| == n + 1
    ensures forall c :: 0 <= c <= n ==> wr.outputter[c] == c && wr.inputter[c] == (if c == n then 0 else c + 1)
  {
    Wiring(seq(n + 1, c requires 0 <= c <= n => if c == n then 0 else c + 1), seq(n + 1, c requires 0 <= c <= n => c))
  }

  /** Branch 0 inputs the token, branch 1 outputs it. */
  function RingGuards(n: nat, p: Pid, input: bool, output: bool): seq<Guard> {
    [Guard(ChanIn(if p == 0 then n else p - 1, 0), input), Guard(ChanOut(p, 0), output)]
  }

  lemma RingOutIndex(n: nat, p: Pid, input: bool, output: bool)
    ensures OutIndex(RingGuards(n, p, input, output)) == if output then 1 else 2
  {
  }

  // ---------- local variables ----------

  function PhaseCode(ph: Ring.Phase): int {
    match ph case INIT => 0 case INJECTING => 1 case CYCLING => 2 case COLLECTING => 3 case FINAL => 4
  }

  function PhaseOf(x: int): Ring.Phase {
    if x == 0 then Ring.INIT else if x == 1 then Ring.INJECTING else if x == 2 then Ring.CYCLING
    else if x == 3 then Ring.COLLECTING else Ring.FINAL
  }

  function RootVars(r: Ring.Root): seq<int> {
    [r.token, r.count, r.sum, PhaseCode(r.state), if r.failed then 1 else 0]
  }

  function RootOf(vars: seq<int>, input: bool, output: bool, done: bool): Ring.Root
    requires |vars| == 5
  {
    Ring.Root(vars[0], vars[1], vars[2], PhaseOf(vars[3]), input, output, done, vars[4] == 1)
  }

  function ElementOf(vars: seq<int>, input: bool, output: bool, done: bool): Ring.Element
    requires |vars| == 1
  {
    Ring.Element(vars[0], input, output, done)
  }

  /** A process's variables and guards are as the ring's code leaves them. */
  predicate Shaped(n: nat, p: Pid, node: Node) {
    && |node.vars| == (if p == 0 then 5 else 1)
    && match node
       case Fresh(_) => true
       case Offering(g, _) => |g| == 2 && g[0].active == !g[1].active && g == RingGuards(n, p, g[0].active, g[1].active)
       case Resuming(g, b, _) =>
         |g| == 2 && g[0].active == !g[1].active && g == RingGuards(n, p, g[0].active, g[1].active) && b < 2 && g[b].active
       case Finished(_) => true
  }

  predicate Input(node: Node) {
    match node
    case Fresh(_) => false
    case Finished(_) => true
    case _ => |node.guards| == 2 && node.guards[0].active
  }

  predicate Output(node: Node) {
    (node.Offering? || node.Resuming?) && |node.guards| == 2 && node.guards[1].active
  }

  /** The process as it is once its code has been run. */
  function SettledElement(node: Node): Ring.Element
    requires |node.vars| == 1
  {
    var e := ElementOf(node.vars, Input(node), Output(node), node.Finished?);
    match node
    case Fresh(_) => Ring.ElementRtc(e, true, 0)
    case Resuming(_, b, _) => Ring.ElementRtc(e, false, b)
    case _ => e
  }

  function SettledRoot(v: Ring.Variant, s: Ring.Settings, node: Node): Ring.Root
    requires |node.vars| == 5
  {
    var r := RootOf(node.vars, Input(node), Output(node), node.Finished?);
    match node
    case Fresh(_) => Ring.RootRtc(v, s, r, true, 0)
    case Resuming(_, b, _) => Ring.RootRtc(v, s, r, false, b)
    case _ => r
  }

  /** Outcome `o` is what the process's code makes of `node`. */
  predicate Follows(v: Ring.Variant, s: Ring.Settings, n: nat, p: Pid, node: Node, o: Outcome)
    requires Shaped(n, p, node)
  {
    && !o.alt.pri && o.alt.index < 2
    && if p == 0 then
         var r := SettledRoot(v, s, node);
         o.vars == RootVars(r) && o.alt.guards == RingGuards(n, p, r.input, r.output) && o.done == r.done
       else
         var e := SettledElement(node);
         o.vars == [e.token] && o.alt.guards == RingGuards(n, p, e.input, e.output) && o.done == e.done
  }

  predicate FollowsLabel(v: Ring.Variant, s: Ring.Settings, n: nat, net: Net, l: Label)
    requires forall p :: 0 <= p < |net| ==> Shaped(n, p, net[p])
  {
    match l
    case Init(p, o) => p < |net| && Follows(v, s, n, p, net[p], o)
    case Run(p, _, o) => p < |net| && Follows(v, s, n, p, net[p], o)
    case _ => true
  }

  predicate RingNet(n: nat, net: Net) {
    |net| == n + 1 && 1 <= n && forall p :: 0 <= p < |net| ==> Shaped(n, p, net[p])
  }

  /** The ring that a network is once every process has run its code. */
  function RingOf(v: Ring.Variant, s: Ring.Settings, n: nat, net: Net): (st: Ring.State)
    requires RingNet(n, net)
    ensures |st.elems| == n
    ensures forall k :: 0 <= k < n ==> st.elems[k] == SettledElement(net[k + 1])
  {
    Ring.State(SettledRoot(v, s, net[0]), seq(n, k requires 0 <= k < n => SettledElement(net[k + 1])))
  }

  // ---------- running code leaves the ring as it is ----------

  lemma PhaseRoundTrip(ph: Ring.Phase)
    ensures PhaseOf(PhaseCode(ph)) == ph
  {
  }

  lemma RootCode(v: Ring.Variant, s: Ring.Settings, n: nat, node: Node, o: Outcome)
    requires Shaped(n, 0, node) && (node.Fresh? || node.Resuming?) && Follows(v, s, n, 0, node, o)
    ensures Shaped(n, 0, AfterCode(o, o.done)) && SettledRoot(v, s, AfterCode(o, o.done)) == SettledRoot(v, s, node)
  {
    PhaseRoundTrip(SettledRoot(v, s, node).state);
  }

  lemma ElementCode(n: nat, p: Pid, node: Node, o: Outcome, v: Ring.Variant, s: Ring.Settings)
    requires 0 < p && Shaped(n, p, node) && (node.Fresh? || node.Resuming?) && Follows(v, s, n, p, node, o)
    ensures Shaped(n, p, AfterCode(o, o.done)) && SettledElement(AfterCode(o, o.done)) == SettledElement(node)
  {
  }

  /** A communication in the network is a communication of the ring. */
  lemma CommIsNext(v: Ring.Variant, s: Ring.Settings, n: nat, net: Net, c: nat, i: nat, x: int)
    requires RingNet(n, net) && ValidWiring(RingWiring(n), n + 1) && CanDo(RingWiring(n), net, Comm(c, i, x))
    ensures var net', st := Do(RingWiring(n), net, Comm(c, i, x)), RingOf(v, s, n, net);
            RingNet(n, net') && Ring.Enabled(st, c) && RingOf(v, s, n, net') == Ring.Next(v, s, st, c)
  {
    var p, q := c, if c == n then 0 else c + 1;
    var net' := Do(RingWiring(n), net, Comm(c, i, x));
    CommEnds(n, net, c, i, x);
    var st, st' := RingOf(v, s, n, net), RingOf(v, s, n, net');
    forall k | 0 <= k < n && k + 1 != p && k + 1 != q ensures st'.elems[k] == st.elems[k] {
      assert net'[k + 1] == net[k + 1];
    }
    assert st'.elems == Ring.Next(v, s, st, c).elems;
  }

  lemma CommEnds(n: nat, net: Net, c: nat, i: nat, x: int)
    requires RingNet(n, net) && ValidWiring(RingWiring(n), n + 1) && CanDo(RingWiring(n), net, Comm(c, i, x))
    ensures var p, q, net' := c, if c == n then 0 else c + 1, Do(RingWiring(n), net, Comm(c, i, x));
            && c <= n && net[p].Offering? && net[p].guards[1].active && x == net[p].vars[0]
            && net[q].Offering? && net[q].guards[0].active && i == 0
            && net'[p] == Resuming(net[p].guards, 1, net[p].vars)
            && net'[q] == Resuming(net[q].guards, 0, net[q].vars[0 := x])
            && Shaped(n, p, net'[p]) && Shaped(n, q, net'[q])
            && (forall r :: 0 <= r <= n && r != p && r != q ==> net'[r] == net[r])
  {
  }

  /** Every step of the network is a step of the ring, or leaves it as it is. */
  lemma LabelIsRingStep(v: Ring.Variant, s: Ring.Settings, n: nat, net: Net, l: Label)
    requires RingNet(n, net) && ValidWiring(RingWiring(n), n + 1) && CanDo(RingWiring(n), net, l)
    requires FollowsLabel(v, s, n, net, l)
    ensures RingNet(n, Do(RingWiring(n), net, l)) && !l.Choose?
    ensures var st, st' := RingOf(v, s, n, net), RingOf(v, s, n, Do(RingWiring(n), net, l));
            if l.Comm? then Ring.Enabled(st, l.chan) && st' == Ring.Next(v, s, st, l.chan) else st' == st
  {
    match l
    case Comm(c, i, x) => CommIsNext(v, s, n, net, c, i, x);
    case Choose(_, _) =>
    case Init(p, o) => CodeKeepsRing(v, s, n, net, p, o, false);
    case Run(p, _, o) => CodeKeepsRing(v, s, n, net, p, o, o.done);
  }

  lemma CodeKeepsRing(v: Ring.Variant, s: Ring.Settings, n: nat, net: Net, p: Pid, o: Outcome, done: bool)
    requires RingNet(n, net) && p <= n && (net[p].Fresh? || net[p].Resuming?) && Follows(v, s, n, p, net[p], o)
    requires done == (o.done && !net[p].Fresh?)
    ensures RingNet(n, net[p := AfterCode(o, done)])
    ensures RingOf(v, s, n, net[p := AfterCode(o, done)]) == RingOf(v, s, n, net)
  {
    assert net[p].Fresh? ==> !o.done;
    if p == 0 {
      RootCode(v, s, n, net[0], o);
    } else {
      ElementCode(n, p, net[p], o, v, s);
    }
    var net' := net[p := AfterCode(o, done)];
    assert RingOf(v, s, n, net').elems == RingOf(v, s, n, net).elems;
  }
}
