/** The four process records of commstime, communications taking place in whatever order. */
module CommsTimeProgram {
  import opened Types
  import opened Network
  import opened SchedulerInv
  import C = CommsTime
  import opened CommsTimeProcesses

  /** After `i` communications, `k` of them in the current round, Consume has received `seen`. */
  ghost predicate Tally(seen: seq<int>, x0: int, next: int, i: int, k: nat) {
    next == x0 + |seen| && C.Consecutive(seen, x0) && i == 4 * |seen| + C.Offset(k) && k <= 4
  }

  lemma TallyNext(seen: seq<int>, x0: int, next: int, i: int, k: nat, c: nat, value: int, next': int, k': nat)
    requires Tally(seen, x0, next, i, k) && next' == (if c == 2 then next + 1 else next) && (c == 2 ==> value == next)
    requires 1 == (if c == 2 then 4 else 0) + C.Offset(k') - C.Offset(k) && k' <= 4
    ensures Tally(if c == 2 then seen + [value] else seen, x0, next', i + 1, k')
  {
  }

  class Program {
    const prefix: Prefix
    const delta: Delta
    const succ: Succ
    const consume: Consume

    constructor (prefix: Prefix, delta: Delta, succ: Succ, consume: Consume)
      ensures this.prefix == prefix && this.delta == delta && this.succ == succ && this.consume == consume
    {
      this.prefix, this.delta, this.succ, this.consume := prefix, delta, succ, consume;
    }

    ghost function Local(p: Pid): (l: C.Local)
      requires p < 4
      reads prefix, delta, succ, consume
      ensures |l.active| == C.Width(p)
    {
      if p == C.PREFIX then prefix.View() else if p == C.DELTA then delta.View()
      else if p == C.SUCC then succ.View() else consume.View()
    }

    /** The network whose processes offer what the records' active guards say. */
    ghost function View(): (net: Net)
      reads prefix, delta, succ, consume
      ensures |net| == 4 && forall p :: 0 <= p < 4 ==> net[p] == Offering(C.Guards(p, Local(p).active), [Local(p).x])
    {
      seq(4, p requires 0 <= p < 4 reads prefix, delta, succ, consume => Offering(C.Guards(p, Local(p).active), [Local(p).x]))
    }

    /** Each record has one guard active, and the network sees it as it is. */
    lemma LocalsSeen()
      requires OneGuardEach()
      ensures C.CommsNet(View()) && forall p :: 0 <= p < 4 ==> C.Settled(p, View()[p]) == Local(p)
    {
      forall p | 0 <= p < 4 ensures C.Shaped(p, View()[p]) && C.Settled(p, View()[p]) == Local(p) {
        assert C.Flags(p, C.Guards(p, Local(p).active)) == Local(p).active;
      }
    }

    /** Both ends of channel `c` are ready to communicate. */
    predicate Enabled(c: nat)
      reads prefix, delta, succ, consume
    {
      || (c == 0 && prefix.output && delta.input)
      || (c == 1 && delta.output1 && succ.input)
      || (c == 2 && delta.output2 && consume.input)
      || (c == 3 && succ.output && prefix.input)
    }

    ghost predicate OneGuardEach()
      reads prefix, delta, succ, consume
    {
      forall p :: 0 <= p < 4 ==> C.OneActive(Local(p).active)
    }

    /** The network can do what the records can. */
    lemma EnabledCanDo(c: nat)
      requires OneGuardEach() && Enabled(c)
      ensures ValidWiring(C.Wires(), 4) && c < 4
      ensures CanDo(C.Wires(), View(), Comm(c, 0, Local(C.Wires().outputter[c]).x))
    {
      LocalsSeen();
      C.OfferingCanDo(View(), c);
    }

    /** The number crosses channel `c` and both ends run their code. */
    method Communicate(c: nat) returns (value: int)
      requires Enabled(c)
      modifies prefix, delta, succ, consume
      ensures c < 4 && value == old(Local(C.Wires().outputter[c]).x)
      ensures var p, q := C.Wires().outputter[c], C.Wires().inputter[c];
              && Local(p) == C.Code(p, old(Local(p)), false, if c == 2 then 2 else 1)
              && Local(q) == C.Code(q, old(Local(q)).(x := value), false, 0)
              && (forall r :: 0 <= r < 4 && r != p && r != q ==> Local(r) == old(Local(r)))
    {
      if c == 0 {
        value := prefix.x;
        delta.x := value;
        delta.Rtc(false, 0);
        prefix.Rtc(false, 1);
      } else if c == 1 {
        value := delta.x;
        succ.x := value;
        succ.Rtc(false, 0);
        delta.Rtc(false, 1);
      } else if c == 2 {
        value := delta.x;
        consume.x := value;
        consume.Rtc(false, 0);
        delta.Rtc(false, 2);
      } else {
        value := succ.x;
        prefix.x := value;
        prefix.Rtc(false, 0);
        succ.Rtc(false, 1);
      }
    }

    method CommunicateOne(c: nat) returns (value: int)
      requires OneGuardEach() && Enabled(c)
      modifies prefix, delta, succ, consume
      ensures c < 4 && value == old(Local(C.Wires().outputter[c]).x) && OneGuardEach()
      ensures var p, q := C.Wires().outputter[c], C.Wires().inputter[c];
              && Local(p) == C.Code(p, old(Local(p)), false, if c == 2 then 2 else 1)
              && Local(q) == C.Code(q, old(Local(q)).(x := value), false, 0)
              && (forall r :: 0 <= r < 4 && r != p && r != q ==> Local(r) == old(Local(r)))
    {
      ghost var p, q := C.Wires().outputter[c], C.Wires().inputter[c];
      ghost var lp, lq := Local(p), Local(q);
      value := Communicate(c);
      C.CodeKeepsOneActive(p, lp, if c == 2 then 2 else 1);
      C.CodeKeepsOneActive(q, lq.(x := value), 0);
      forall r | 0 <= r < 4 ensures C.OneActive(Local(r).active) {
        assert r == p || r == q || Local(r) == old(Local(r));
      }
    }

    /** The records are in round `k`, and `next` is the next number for Consume. */
    ghost predicate At(next: int, k: nat)
      reads prefix, delta, succ, consume
    {
      OneGuardEach() && C.Round(View(), next, k)
    }

    /** A communication of the records keeps the round of the network. */
    method Advance(c: nat, ghost next: int, ghost k: nat) returns (value: int)
      requires At(next, k) && Enabled(c)
      modifies prefix, delta, succ, consume
      ensures C.InRound(k, c) && (c == 2 ==> value == next)
      ensures At(if c == 2 then next + 1 else next, C.NextRound(k, c))
    {
      ghost var net := View();
      LocalsSeen();
      EnabledCanDo(c);
      value := CommunicateOne(c);
      LocalsSeen();
      C.CommAndCode(net, View(), c, value, next, k);
    }

    /** Every process runs its code for the first time. */
    method Start()
      modifies prefix, delta, succ, consume
      ensures At(old(prefix.x), 0)
    {
      prefix.Rtc(true, 0);
      delta.Rtc(true, 0);
      succ.Rtc(true, 0);
      consume.Rtc(true, 0);
      assert prefix.View().active[1] && delta.View().active[0] && succ.View().active[0] && consume.View().active[0];
      LocalsSeen();
    }

    /** Some channel that can communicate does. */
    method Step(ghost next: int, ghost k: nat) returns (c: nat, value: int, ghost next': int, ghost k': nat)
      requires At(next, k)
      modifies prefix, delta, succ, consume
      ensures At(next', k') && next' == (if c == 2 then next + 1 else next) && (c == 2 ==> value == next)
      ensures 1 == (if c == 2 then 4 else 0) + C.Offset(k') - C.Offset(k) && k' <= 4
    {
      c := Choose(next, k);
      value := Advance(c, next, k);
      next', k' := if c == 2 then next + 1 else next, C.NextRound(k, c);
    }

    /** After any number of communications, in whatever order, Consume has received
        consecutive numbers from Prefix's starting value on, one in every four. */
    method Run(m: nat) returns (seen: seq<int>)
      modifies prefix, delta, succ, consume
      ensures C.Consecutive(seen, old(prefix.x)) && 4 * |seen| <= m + 1 && m <= 4 * |seen| + 3
    {
      ghost var x0, next, k := prefix.x, prefix.x, 0;
      seen := [];
      Start();
      for i := 0 to m
        invariant At(next, k) && Tally(seen, x0, next, i, k)
      {
        var c, value;
        ghost var was, from := next, k;
        c, value, next, k := Step(next, k);
        TallyNext(seen, x0, was, i, from, c, value, next, k);
        if c == 2 {
          seen := seen + [value];
        }
      }
    }

    /** Any of the channels that can communicate; there always is one. */
    method Choose(ghost next: int, ghost k: nat) returns (c: nat)
      requires At(next, k)
      ensures c < 4 && Enabled(c)
    {
      LocalsSeen();
      assert Enabled(C.NextChannel(k));
      c :| c < 4 && Enabled(c);
    }
  }
}
