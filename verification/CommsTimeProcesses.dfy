/** The processes of commstime as records whose code updates them in place. The
    flags say which guards are active; `x` is the integer a process passes on. */
module CommsTimeProcesses {
  import C = CommsTime

  class Prefix {
    var x: int
    var input: bool
    var output: bool

    constructor (x: int)
      ensures View() == C.Local(x, [false, false])
    {
      this.x, input, output := x, false, false;
    }

    ghost function View(): C.Local
      reads this
    {
      C.Local(x, [input, output])
    }

    method Rtc(initial: bool, selected: nat)
      modifies this
      ensures View() == C.Code(C.PREFIX, old(View()), initial, selected)
    {
      if initial {
        input, output := true, false;
      }
      input := !input;
      output := !output;
    }
  }

  class Delta {
    var x: int
    var input: bool
    var output1: bool
    var output2: bool

    constructor (x: int)
      ensures View() == C.Local(x, [false, false, false])
    {
      this.x, input, output1, output2 := x, false, false, false;
    }

    ghost function View(): C.Local
      reads this
    {
      C.Local(x, [input, output1, output2])
    }

    method Rtc(initial: bool, selected: nat)
      modifies this
      ensures View() == C.Code(C.DELTA, old(View()), initial, selected)
    {
      if initial {
        input, output1, output2 := true, false, false;
      } else if selected == 0 {
        input, output1 := false, true;
      } else if selected == 1 {
        output1, output2 := false, true;
      } else if selected == 2 {
        output2, input := false, true;
      }
    }
  }

  class Succ {
    var x: int
    var input: bool
    var output: bool

    constructor (x: int)
      ensures View() == C.Local(x, [false, false])
    {
      this.x, input, output := x, false, false;
    }

    ghost function View(): C.Local
      reads this
    {
      C.Local(x, [input, output])
    }

    method Rtc(initial: bool, selected: nat)
      modifies this
      ensures View() == C.Code(C.SUCC, old(View()), initial, selected)
    {
      if initial {
        input, output := false, true;
      }
      x := x + 1;
      input := !input;
      output := !output;
    }
  }

  class Consume {
    var x: int
    var input: bool

    constructor (x: int)
      ensures View() == C.Local(x, [false])
    {
      this.x, input := x, false;
    }

    ghost function View(): C.Local
      reads this
    {
      C.Local(x, [input])
    }

    /** Apart from its report of elapsed time. */
    method Rtc(initial: bool, selected: nat)
      modifies this
      ensures View() == C.Code(C.CONSUME, old(View()), initial, selected)
    {
      if initial {
        input := true;
      }
    }
  }
}
