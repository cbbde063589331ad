/** The CSP processes the scheduler is meant to implement: each process either
    offers the guards of its ALT, or has completed one of them and is about to
    run its code. A communication is one step of both partners. */
module Network {
  import opened Types
  import opened AltChannels
  import opened Scheduler
  import opened SchedulerInv

  datatype Node =
    | Fresh(vars: seq<int>)                                    // not started
    | Offering(guards: seq<Guard>, vars: seq<int>)             // waits for one of its active guards
    | Resuming(guards: seq<Guard>, branch: nat, vars: seq<int>) // `branch` is completed, code not yet run
    | Finished(vars: seq<int>)

  type Net = seq<Node>

  datatype Label =
    | Init(p: Pid, o: Outcome)
    | Comm(chan: nat, branch: nat, value: int)   // the inputter's branch, and the value that crosses
    | Choose(p: Pid, branch: nat)                // a skip
    | Run(p: Pid, seen: Node, o: Outcome)        // the process's code runs on what it has received

  function AfterCode(o: Outcome, done: bool): Node {
    if done then Finished(o.vars) else Offering(o.alt.guards, o.vars)
  }

  predicate OffersOutput(n: Node, c: nat) {
    n.Offering? && HasOutput(n.guards) && n.guards[OutIndex(n.guards)].kind.chan == c
    && n.guards[OutIndex(n.guards)].kind.src < |n.vars|
  }

  function OutputValue(n: Node, c: nat): int
    requires OffersOutput(n, c)
  {
    n.vars[n.guards[OutIndex(n.guards)].kind.src]
  }

  predicate OffersInput(n: Node, i: nat, c: nat) {
    n.Offering? && !HasOutput(n.guards) && i < |n.guards| && InputOn(n.guards[i], c) && n.guards[i].kind.dest < |n.vars|
  }

  ghost predicate CanDo(wr: Wiring, net: Net, l: Label)
    requires ValidWiring(wr, |net|)
  {
    match l
    case Init(p, _) => p < |net| && net[p].Fresh?
    case Comm(c, i, v) =>
      c < |wr.inputter| && OffersOutput(net[wr.outputter[c]], c) && OffersInput(net[wr.inputter[c]], i, c)
      && v == OutputValue(net[wr.outputter[c]], c)
    case Choose(p, i) => p < |net| && net[p].Offering? && !HasOutput(net[p].guards) && i < |net[p].guards| && Skips(net[p].guards[i])
    case Run(p, seen, _) => p < |net| && net[p] == seen && seen.Resuming?
  }

  function Do(wr: Wiring, net: Net, l: Label): (net': Net)
    requires ValidWiring(wr, |net|) && CanDo(wr, net, l)
    ensures |net'| == |net|
  {
    match l
    case Init(p, o) => net[p := AfterCode(o, false)]
    case Comm(c, i, v) =>
      var p, q := wr.outputter[c], wr.inputter[c];
      net[p := Resuming(net[p].guards, OutIndex(net[p].guards), net[p].vars)]
         [q := Resuming(net[q].guards, i, net[q].vars[net[q].guards[i].kind.dest := v])]
    case Choose(p, i) => net[p := Resuming(net[p].guards, i, net[p].vars)]
    case Run(p, _, o) => net[p := AfterCode(o, o.done)]
  }

  ghost predicate CanDoAll(wr: Wiring, net: Net, ls: seq<Label>)
    requires ValidWiring(wr, |net|)
    decreases |ls|
  {
    ls == [] || (CanDo(wr, net, ls[0]) && CanDoAll(wr, Do(wr, net, ls[0]), ls[1..]))
  }

  ghost function DoAll(wr: Wiring, net: Net, ls: seq<Label>): (net': Net)
    requires ValidWiring(wr, |net|) && CanDoAll(wr, net, ls)
    ensures |net'| == |net|
    decreases |ls|
  {
    if ls == [] then net else DoAll(wr, Do(wr, net, ls[0]), ls[1..])
  }

  lemma {:induction false} DoAllConcat(wr: Wiring, net: Net, a: seq<Label>, b: seq<Label>)
    requires ValidWiring(wr, |net|) && CanDoAll(wr, net, a) && CanDoAll(wr, DoAll(wr, net, a), b)
    ensures CanDoAll(wr, net, a + b) && DoAll(wr, net, a + b) == DoAll(wr, DoAll(wr, net, a), b)
    decreases |a|
  {
    if a == [] {
      assert a + b == b;
    } else {
      assert (a + b)[1..] == a[1..] + b;
      DoAllConcat(wr, Do(wr, net, a[0]), a[1..], b);
    }
  }

  // ---------- what crosses a channel ----------

  /** The value that a process's code leaves to be output on channel `c`. */
  function OfferOf(n: Node, c: nat): seq<int> {
    if OffersOutput(n, c) then [OutputValue(n, c)] else []
  }

  predicate TookFrom(n: Node, c: nat) {
    n.Resuming? && n.branch < |n.guards| && InputOn(n.guards[n.branch], c) && n.guards[n.branch].kind.dest < |n.vars|
  }

  /** The value received from channel `c` that the process's code has not seen yet. */
  function ReceiptOf(n: Node, c: nat): seq<int> {
    if TookFrom(n, c) then [n.vars[n.guards[n.branch].kind.dest]] else []
  }

  predicate Sent(n: Node, c: nat) {
    n.Resuming? && n.branch < |n.guards| && IsOutput(n.guards[n.branch]) && n.guards[n.branch].kind.chan == c
  }

  function Owes(n: Node, c: nat): nat {
    if Sent(n, c) then 1 else 0
  }

  function OfferedBy(wr: Wiring, l: Label, c: nat): seq<int>
    requires c < |wr.outputter|
  {
    match l
    case Init(p, o) => if p == wr.outputter[c] then OfferOf(AfterCode(o, false), c) else []
    case Run(p, _, o) => if p == wr.outputter[c] then OfferOf(AfterCode(o, o.done), c) else []
    case _ => []
  }

  function CrossedBy(l: Label, c: nat): seq<int> {
    if l.Comm? && l.chan == c then [l.value] else []
  }

  function SeenBy(wr: Wiring, l: Label, c: nat): seq<int>
    requires c < |wr.inputter|
  {
    if l.Run? && l.p == wr.inputter[c] then ReceiptOf(l.seen, c) else []
  }

  function EndedBy(wr: Wiring, l: Label, c: nat): nat
    requires c < |wr.outputter|
  {
    if l.Run? && l.p == wr.outputter[c] then Owes(l.seen, c) else 0
  }

  /** The values the outputter's code has offered on channel `c`, in order. */
  function Offered(wr: Wiring, ls: seq<Label>, c: nat): seq<int>
    requires c < |wr.outputter|
  {
    if ls == [] then [] else OfferedBy(wr, ls[0], c) + Offered(wr, ls[1..], c)
  }

  /** The values that have crossed channel `c`, in order. */
  function Crossed(ls: seq<Label>, c: nat): seq<int> {
    if ls == [] then [] else CrossedBy(ls[0], c) + Crossed(ls[1..], c)
  }

  /** The values the inputter's code has been run on, in order. */
  function Seen(wr: Wiring, ls: seq<Label>, c: nat): seq<int>
    requires c < |wr.inputter|
  {
    if ls == [] then [] else SeenBy(wr, ls[0], c) + Seen(wr, ls[1..], c)
  }

  /** How often the outputter's code has run after an output on channel `c`. */
  function Ended(wr: Wiring, ls: seq<Label>, c: nat): nat
    requires c < |wr.outputter|
  {
    if ls == [] then 0 else EndedBy(wr, ls[0], c) + Ended(wr, ls[1..], c)
  }

  lemma OneOffer(wr: Wiring, net: Net, l: Label, c: nat)
    requires ValidWiring(wr, |net|) && CanDo(wr, net, l) && c < |wr.inputter|
    ensures var net', p := Do(wr, net, l), wr.outputter[c];
            OfferOf(net[p], c) + OfferedBy(wr, l, c) == CrossedBy(l, c) + OfferOf(net'[p], c)
  {
  }

  lemma OneReceipt(wr: Wiring, net: Net, l: Label, c: nat)
    requires ValidWiring(wr, |net|) && CanDo(wr, net, l) && c < |wr.inputter|
    ensures var net', q := Do(wr, net, l), wr.inputter[c];
            ReceiptOf(net[q], c) + CrossedBy(l, c) == SeenBy(wr, l, c) + ReceiptOf(net'[q], c)
  {
  }

  lemma OneEnd(wr: Wiring, net: Net, l: Label, c: nat)
    requires ValidWiring(wr, |net|) && CanDo(wr, net, l) && c < |wr.inputter|
    ensures var net', p := Do(wr, net, l), wr.outputter[c];
            Owes(net[p], c) + |CrossedBy(l, c)| == EndedBy(wr, l, c) + Owes(net'[p], c)
  {
  }

  lemma Splice(a: seq<int>, b: seq<int>, b': seq<int>, c: seq<int>, x: seq<int>, c': seq<int>, d: seq<int>)
    requires a + b == c + x && x + b' == c' + d
    ensures a + (b + b') == (c + c') + d
  {
    assert a + (b + b') == (a + b) + b';
    assert (c + x) + b' == c + (x + b');
    assert (c + c') + d == c + (c' + d);
  }

  /** The values offered on a channel cross it in order and once each; the one
      that may still be missing is the one its outputter is offering now. */
  lemma {:induction false} OfferedCrosses(wr: Wiring, net: Net, ls: seq<Label>, c: nat)
    requires ValidWiring(wr, |net|) && CanDoAll(wr, net, ls) && c < |wr.inputter|
    ensures OfferOf(net[wr.outputter[c]], c) + Offered(wr, ls, c) ==
            Crossed(ls, c) + OfferOf(DoAll(wr, net, ls)[wr.outputter[c]], c)
    decreases |ls|
  {
    if ls != [] {
      var net' := Do(wr, net, ls[0]);
      OneOffer(wr, net, ls[0], c);
      OfferedCrosses(wr, net', ls[1..], c);
      var p := wr.outputter[c];
      Splice(OfferOf(net[p], c), OfferedBy(wr, ls[0], c), Offered(wr, ls[1..], c),
             CrossedBy(ls[0], c), OfferOf(net'[p], c), Crossed(ls[1..], c), OfferOf(DoAll(wr, net, ls)[p], c));
    }
  }

  /** The inputter's code is run on the values that crossed, in order and once each. */
  lemma {:induction false} CrossedIsSeen(wr: Wiring, net: Net, ls: seq<Label>, c: nat)
    requires ValidWiring(wr, |net|) && CanDoAll(wr, net, ls) && c < |wr.inputter|
    ensures ReceiptOf(net[wr.inputter[c]], c) + Crossed(ls, c) ==
            Seen(wr, ls, c) + ReceiptOf(DoAll(wr, net, ls)[wr.inputter[c]], c)
    decreases |ls|
  {
    if ls != [] {
      var net' := Do(wr, net, ls[0]);
      OneReceipt(wr, net, ls[0], c);
      CrossedIsSeen(wr, net', ls[1..], c);
      var q := wr.inputter[c];
      Splice(ReceiptOf(net[q], c), CrossedBy(ls[0], c), Crossed(ls[1..], c),
             SeenBy(wr, ls[0], c), ReceiptOf(net'[q], c), Seen(wr, ls[1..], c), ReceiptOf(DoAll(wr, net, ls)[q], c));
    }
  }

  /** The outputter's code runs exactly once for each value that has crossed, and never before it. */
  lemma {:induction false} OneRunPerCrossing(wr: Wiring, net: Net, ls: seq<Label>, c: nat)
    requires ValidWiring(wr, |net|) && CanDoAll(wr, net, ls) && c < |wr.inputter|
    ensures Owes(net[wr.outputter[c]], c) + |Crossed(ls, c)| ==
            Ended(wr, ls, c) + Owes(DoAll(wr, net, ls)[wr.outputter[c]], c)
    decreases |ls|
  {
    if ls != [] {
      OneEnd(wr, net, ls[0], c);
      OneRunPerCrossing(wr, Do(wr, net, ls[0]), ls[1..], c);
    }
  }

  // ---------- counting ----------

  function Comms(ls: seq<Label>): nat {
    if ls == [] then 0 else (if ls[0].Comm? then 1 else 0) + Comms(ls[1..])
  }

  /** The process's code is due. */
  predicate Due(n: Node) {
    n.Fresh? || n.Resuming?
  }

  function DueCount(net: Net): nat {
    if net == [] then 0 else (if Due(net[0]) then 1 else 0) + DueCount(net[1..])
  }

  lemma {:induction false} DueCountUpdate(net: Net, p: Pid, n: Node)
    requires p < |net|
    ensures DueCount(net[p := n]) == DueCount(net) + (if Due(n) then 1 else 0) - (if Due(net[p]) then 1 else 0)
  {
    if p == 0 {
      assert net[p := n][1..] == net[1..];
    } else {
      assert net[p := n][1..] == net[1..][p - 1 := n];
      DueCountUpdate(net[1..], p - 1, n);
    }
  }

  lemma {:induction false} DueCountBound(net: Net)
    ensures DueCount(net) <= |net|
  {
    if net != [] {
      DueCountBound(net[1..]);
    }
  }

  lemma DueStep(wr: Wiring, net: Net, l: Label)
    requires ValidWiring(wr, |net|) && CanDo(wr, net, l) && !l.Choose?
    ensures DueCount(Do(wr, net, l)) == DueCount(net) + if l.Comm? then 2 else -1
  {
    match l
    case Init(p, o) => DueCountUpdate(net, p, AfterCode(o, false));
    case Run(p, _, o) => DueCountUpdate(net, p, AfterCode(o, o.done));
    case Comm(c, i, v) =>
      var p, q := wr.outputter[c], wr.inputter[c];
      var a := Resuming(net[p].guards, OutIndex(net[p].guards), net[p].vars);
      DueCountUpdate(net, p, a);
      DueCountUpdate(net[p := a], q, Resuming(net[q].guards, i, net[q].vars[net[q].guards[i].kind.dest := v]));
  }

  /** Without skips, code runs once for each process and twice for each communication. */
  lemma {:induction false} CodeBudget(wr: Wiring, net: Net, ls: seq<Label>)
    requires ValidWiring(wr, |net|) && CanDoAll(wr, net, ls) && forall l :: l in ls ==> !l.Choose?
    ensures |ls| + DueCount(DoAll(wr, net, ls)) == DueCount(net) + 3 * Comms(ls)
    decreases |ls|
  {
    if ls != [] {
      assert ls[0] in ls;
      DueStep(wr, net, ls[0]);
      CodeBudget(wr, Do(wr, net, ls[0]), ls[1..]);
    }
  }
}
