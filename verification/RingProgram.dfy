/** A ring of process records run to its end, communications taking place in
    whatever order. */
module RingProgram {
  import R = Ring
  import RingLaws
  import opened RingProcesses

  class Program {
    const v: R.Variant
    const root: Root
    const elems: seq<Element>

    constructor (v: R.Variant, root: Root, elems: seq<Element>)
      ensures this.v == v && this.root == root && this.elems == elems
    {
      this.v, this.root, this.elems := v, root, elems;
    }

    ghost predicate Distinct() {
      1 <= |elems| && forall i, j :: 0 <= i < j < |elems| ==> elems[i] != elems[j]
    }

    ghost function Elements(n: nat): (r: seq<R.Element>)
      requires n <= |elems|
      reads elems
      ensures |r| == n && forall k :: 0 <= k < n ==> r[k] == elems[k].View()
    {
      if n == 0 then [] else Elements(n - 1) + [elems[n - 1].View()]
    }

    ghost function View(): (st: R.State)
      reads root, elems
      ensures st.root == root.View() && |st.elems| == |elems| && forall k :: 0 <= k < |elems| ==> st.elems[k] == elems[k].View()
    {
      R.State(root.View(), Elements(|elems|))
    }

    /** Both ends of channel `c` are ready to communicate. */
    predicate Enabled(c: nat)
      reads root, elems
    {
      && c <= |elems|
      && (if c == 0 then root.output && !root.done else elems[c - 1].output && !elems[c - 1].done)
      && (if c == |elems| then root.input && !root.done else elems[c].input && !elems[c].done)
    }

    /** The token crosses channel `c` and both ends run their code. */
    method Communicate(c: nat)
      requires Distinct() && Enabled(c)
      modifies root, elems
      ensures R.Enabled(old(View()), c) && View() == R.Next(v, root.settings, old(View()), c)
    {
      var n := |elems|;
      if c == 0 {
        var right := elems[0];
        right.token := root.token;
        right.Rtc(false, R.IN);
        root.Rtc(v, false, R.OUT);
      } else if c == n {
        var left := elems[n - 1];
        root.token := left.token;
        root.Rtc(v, false, R.IN);
        left.Rtc(false, R.OUT);
      } else {
        var left, right := elems[c - 1], elems[c];
        assert left != right;
        right.token := left.token;
        right.Rtc(false, R.IN);
        left.Rtc(false, R.OUT);
      }
      assert View().elems == R.Next(v, root.settings, old(View()), c).elems;
    }

    /** Every process runs its code for the first time. */
    method Start()
      requires Distinct() && !root.done && !root.failed && forall k :: 0 <= k < |elems| ==> !elems[k].done
      modifies root, elems
      ensures R.Starts(v, root.settings, View())
    {
      root.Rtc(v, true, 0);
      for k := 0 to |elems|
        invariant R.RootRtc(v, root.settings, old(root.View()), true, 0) == root.View()
        invariant forall j :: 0 <= j < |elems| ==> !elems[j].done
        invariant forall j :: 0 <= j < k ==> elems[j].input && !elems[j].output
      {
        elems[k].Rtc(true, 0);
      }
    }

    /** The program terminates, every process with it, and prints the right sum. */
    method Run()
      requires Distinct() && !root.done && !root.failed && forall k :: 0 <= k < |elems| ==> !elems[k].done
      requires RingLaws.ValidSettings(v, root.settings) && RingLaws.TokenCount(v, root.settings) <= |elems|
      modifies root, elems
      ensures root.done && forall k :: 0 <= k < |elems| ==> elems[k].done
      ensures root.sum == RingLaws.Goal(v, root.settings, |elems|) && !root.failed
    {
      Start();
      RingLaws.StartInv(v, root.settings, View());
      while exists c :: 0 <= c <= |elems| && Enabled(c)
        invariant RingLaws.Inv(v, root.settings, View())
        decreases RingLaws.Remaining(v, root.settings, View())
      {
        var c: nat :| c <= |elems| && Enabled(c);
        ghost var st := View();
        RingLaws.RemainingNonNegative(v, root.settings, st);
        Communicate(c);
        RingLaws.StepInv(v, root.settings, st, c);
      }
      Ended();
    }

    /** A ring in which nothing can communicate has finished. */
    lemma Ended()
      requires RingLaws.Inv(v, root.settings, View()) && RingLaws.TokenCount(v, root.settings) <= |elems|
      requires !exists c :: 0 <= c <= |elems| && Enabled(c)
      ensures root.done && forall k :: 0 <= k < |elems| ==> elems[k].done
      ensures root.sum == RingLaws.Goal(v, root.settings, |elems|) && !root.failed
    {
      var st := View();
      if !st.root.done {
        RingLaws.NoDeadlock(v, root.settings, st);
        var c :| 0 <= c <= |st.elems| && R.Enabled(st, c);
        assert Enabled(c);
      }
      assert forall k :: 0 <= k < |elems| ==> st.elems[k] == elems[k].View();
    }
  }
}
