/** The scheduler loop implements the network of communicating processes. */
module Refinement {
  import opened Types
  import opened Alt
  import opened AltChannels
  import opened Scheduler
  import opened SchedulerInv
  import opened SchedulerMoves
  import opened Network

  /** A process as the network sees it. A readied outputter has been served; a
      readied inputter has yet to choose. */
  function NodeOf(pr: Proc): Node {
    match pr.state
    case INITIAL => Fresh(pr.vars)
    case DONE => Finished(pr.vars)
    case READY =>
      if HasOutput(pr.alt.guards) then Resuming(pr.alt.guards, OutIndex(pr.alt.guards), pr.vars)
      else Offering(pr.alt.guards, pr.vars)
    case _ => Offering(pr.alt.guards, pr.vars)
  }

  function NetOf(s: Sys): (net: Net)
    ensures |net| == |s.procs|
    ensures forall p :: 0 <= p < |net| ==> net[p] == NodeOf(s.procs[p])
  {
    seq(|s.procs|, p requires 0 <= p < |s.procs| => NodeOf(s.procs[p]))
  }

  /** The variables of the current process after its input from channel `c`. */
  function ReceivedVars(s: Sys, i: nat, c: nat): seq<int>
    requires CanStep(s) && c < |s.cells| && i < |s.procs[Current(s)].alt.guards| && s.procs[Current(s)].alt.guards[i].kind.ChanIn?
  {
    Receive(s, Current(s), FromChannel(s.procs[Current(s)].alt.guards[i].kind.dest, s.cells[c].src))
  }

  /** The steps of the network that one iteration performs. */
  ghost function LabelsOf(wr: Wiring, s: Sys, o: Outcome): seq<Label>
    requires Inv(wr, s) && Running(s)
  {
    StepMoves(wr, Intended, s, o);
    var p := Current(s);
    var pr := s.procs[p];
    match MoveOf(s)
    case Start => [Init(p, o)]
    case Wait => []
    case Offer(_, _) => []
    case Resume => [Label.Run(p, NodeOf(pr), o)]
    case Pass(i) => [Choose(p, i), Label.Run(p, Resuming(pr.alt.guards, i, pr.vars), o)]
    case Take(i, c) =>
      TakeValue(wr, s, o, i, c);
      var vars := ReceivedVars(s, i, c);
      [Comm(c, i, vars[pr.alt.guards[i].kind.dest]), Label.Run(p, Resuming(pr.alt.guards, i, vars), o)]
  }

  /** The selected channel holds its outputter, still waiting with the value it offers. */
  lemma TakeValue(wr: Wiring, s: Sys, o: Outcome, i: nat, c: nat)
    requires Inv(wr, s) && Running(s) && CanStep(s) && MoveOf(s) == Take(i, c)
    ensures var p := Current(s);
            var g := s.procs[p].alt.guards;
            && c < |s.cells| && i < |g| && InputOn(g[i], c) && g[i].kind.dest < |s.procs[p].vars| && !HasOutput(g)
            && wr.inputter[c] == p && s.cells[c].waiting == Some(wr.outputter[c])
            && s.procs[wr.outputter[c]].state == WAITING && OffersOutput(NodeOf(s.procs[wr.outputter[c]]), c)
            && ReceivedVars(s, i, c) ==
               s.procs[p].vars[g[i].kind.dest := OutputValue(NodeOf(s.procs[wr.outputter[c]]), c)]
  {
    StepMoves(wr, Intended, s, o);
    var p := Current(s);
    assert CellOk(wr, s, c);
    BehavedFits(wr, p, s.procs[p], s.cells);
    var g := s.procs[p].alt.guards;
    assert OwnGuard(wr, p, g[i], s.procs[p].vars);
    var q := s.cells[c].waiting.value;
    BehavedFits(wr, q, s.procs[q], s.cells);
  }

  /** One iteration is a run of the network: it selects by communicating. */
  lemma StepRefines(wr: Wiring, s: Sys, o: Outcome)
    requires Inv(wr, s) && Running(s) && Behaved(wr, Current(s), o.alt, o.vars)
    ensures CanStep(s) && CanDoAll(wr, NetOf(s), LabelsOf(wr, s, o))
    ensures DoAll(wr, NetOf(s), LabelsOf(wr, s, o)) == NetOf(Step(Intended, s, o))
  {
    StepMoves(wr, Intended, s, o);
    match MoveOf(s)
    case Start => RunRefines(wr, s, o);
    case Resume => RunRefines(wr, s, o);
    case Pass(_) => PassRefines(wr, s, o);
    case Wait =>
    case Offer(_, _) => OfferRefines(wr, s, o);
    case Take(i, c) => TakeRefines(wr, s, o, i, c);
  }

  lemma DoOne(wr: Wiring, net: Net, l: Label)
    requires ValidWiring(wr, |net|) && CanDo(wr, net, l)
    ensures CanDoAll(wr, net, [l]) && DoAll(wr, net, [l]) == Do(wr, net, l)
  {
  }

  lemma DoTwo(wr: Wiring, net: Net, l: Label, l': Label)
    requires ValidWiring(wr, |net|) && CanDo(wr, net, l) && CanDo(wr, Do(wr, net, l), l')
    ensures CanDoAll(wr, net, [l, l']) && DoAll(wr, net, [l, l']) == Do(wr, Do(wr, net, l), l')
  {
    assert [l, l'][1..] == [l'];
    DoOne(wr, Do(wr, net, l), l');
  }

  lemma RunRefines(wr: Wiring, s: Sys, o: Outcome)
    requires Inv(wr, s) && Running(s) && CanStep(s) && MoveOf(s) in {Start, Resume}
    ensures CanDoAll(wr, NetOf(s), LabelsOf(wr, s, o))
    ensures DoAll(wr, NetOf(s), LabelsOf(wr, s, o)) == NetOf(Step(Intended, s, o))
  {
    StepMoves(wr, Intended, s, o);
    DoOne(wr, NetOf(s), LabelsOf(wr, s, o)[0]);
  }

  lemma PassRefines(wr: Wiring, s: Sys, o: Outcome)
    requires Inv(wr, s) && Running(s) && CanStep(s) && MoveOf(s).Pass?
    ensures CanDoAll(wr, NetOf(s), LabelsOf(wr, s, o))
    ensures DoAll(wr, NetOf(s), LabelsOf(wr, s, o)) == NetOf(Step(Intended, s, o))
  {
    StepMoves(wr, Intended, s, o);
    var p, i := Current(s), MoveOf(s).branch;
    var g := s.procs[p].alt.guards;
    assert !HasOutput(g) by {
      assert OutputAlone(g) && Skips(g[i]);
    }
    DoTwo(wr, NetOf(s), LabelsOf(wr, s, o)[0], LabelsOf(wr, s, o)[1]);
  }

  lemma OfferRefines(wr: Wiring, s: Sys, o: Outcome)
    requires Inv(wr, s) && Running(s) && CanStep(s) && MoveOf(s).Offer?
    ensures NetOf(Step(Intended, s, o)) == NetOf(s)
  {
    StepMoves(wr, Intended, s, o);
    assert CellOk(wr, s, MoveOf(s).chan);
    assert s.procs[Current(s)].state == QUIESCENT;
  }

  lemma TakeStates(wr: Wiring, s: Sys, o: Outcome, i: nat, c: nat)
    requires Inv(wr, s) && Running(s) && CanStep(s) && MoveOf(s) == Take(i, c) && c < |s.cells|
    requires s.cells[c].waiting == Some(wr.outputter[c]) && wr.outputter[c] != Current(s)
    requires s.procs[wr.outputter[c]].state == WAITING
    ensures var p, q, s' := Current(s), wr.outputter[c], Step(Intended, s, o);
            && |s'.procs| == |s.procs|
            && NodeOf(s'.procs[p]) == AfterCode(o, o.done)
            && s'.procs[q] == s.procs[q].(state := READY)
            && (forall r :: 0 <= r < |s.procs| && r != p && r != q ==> s'.procs[r] == s.procs[r])
  {
    StepMoves(wr, Intended, s, o);
  }

  /** The transfer is a communication, after which the inputter's code is due. */
  lemma TakeCommunicates(wr: Wiring, s: Sys, o: Outcome, i: nat, c: nat)
    requires Inv(wr, s) && Running(s) && CanStep(s) && MoveOf(s) == Take(i, c)
    ensures var net, ls := NetOf(s), LabelsOf(wr, s, o);
            && |ls| == 2 && CanDo(wr, net, ls[0]) && CanDo(wr, Do(wr, net, ls[0]), ls[1])
            && c < |wr.outputter| && wr.outputter[c] != Current(s) && net[wr.outputter[c]].Offering?
            && HasOutput(net[wr.outputter[c]].guards)
            && Do(wr, Do(wr, net, ls[0]), ls[1]) == Served(net, Current(s), wr.outputter[c], AfterCode(o, o.done))
  {
    InvCanStep(wr, s);
    TakeValue(wr, s, o, i, c);
    var p := Current(s);
    var net, ls := NetOf(s), LabelsOf(wr, s, o);
    assert net[p] == Offering(s.procs[p].alt.guards, s.procs[p].vars);
    assert CanDo(wr, net, ls[0]);
    assert Do(wr, net, ls[0])[p] == ls[1].seen;
  }

  /** The network after outputter `q` has been served and the code of inputter `p` has run. */
  function Served(net: Net, p: Pid, q: Pid, after: Node): (net': Net)
    requires p < |net| && q < |net| && p != q && net[q].Offering? && HasOutput(net[q].guards)
    ensures |net'| == |net|
  {
    net[q := Resuming(net[q].guards, OutIndex(net[q].guards), net[q].vars)][p := after]
  }

  lemma TakeRefines(wr: Wiring, s: Sys, o: Outcome, i: nat, c: nat)
    requires Inv(wr, s) && Running(s) && CanStep(s) && MoveOf(s) == Take(i, c)
    ensures CanDoAll(wr, NetOf(s), LabelsOf(wr, s, o))
    ensures DoAll(wr, NetOf(s), LabelsOf(wr, s, o)) == NetOf(Step(Intended, s, o))
  {
    TakeCommunicates(wr, s, o, i, c);
    TakeValue(wr, s, o, i, c);
    TakeStates(wr, s, o, i, c);
    var ls := LabelsOf(wr, s, o);
    assert ls == [ls[0], ls[1]];
    DoTwo(wr, NetOf(s), ls[0], ls[1]);
    assert NetOf(Step(Intended, s, o)) == Served(NetOf(s), Current(s), wr.outputter[c], AfterCode(o, o.done));
  }
}
