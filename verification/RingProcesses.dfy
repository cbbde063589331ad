/** The processes of mtring, ring3 and ring as records whose code updates them in
    place at each activation. `input` and `output` are the active flags of the
    guards in branches 0 and 1. */
module RingProcesses {
  import R = Ring

  class Element {
    var token: int
    var input: bool
    var output: bool
    var done: bool

    constructor ()
      ensures View() == R.Element(0, false, false, false)
    {
      token, input, output, done := 0, false, false, false;
    }

    ghost function View(): R.Element
      reads this
    {
      R.Element(token, input, output, done)
    }

    method Rtc(initial: bool, selected: nat)
      modifies this
      ensures View() == R.ElementRtc(old(View()), initial, selected)
    {
      if initial {
        input, output := true, false;
      } else if selected == R.IN {
        if token > 0 {
          token := token + 1;
        }
        input, output := false, true;
      } else if selected == R.OUT {
        if token == 0 {
          done := true;
        }
        input, output := true, false;
      }
    }
  }

  class Root {
    const settings: R.Settings
    var token: int
    var count: int
    var sum: int
    var state: R.Phase
    var input: bool
    var output: bool
    var done: bool
    var failed: bool

    constructor (settings: R.Settings)
      ensures this.settings == settings && View() == R.Root(0, 0, 0, R.INIT, false, false, false, false)
    {
      this.settings := settings;
      token, count, sum, state := 0, 0, 0, R.INIT;
      input, output, done, failed := false, false, false, false;
    }

    ghost function View(): R.Root
      reads this
    {
      R.Root(token, count, sum, state, input, output, done, failed)
    }

    method PrepareInput()
      modifies `input, `output
      ensures View() == R.ToInput(old(View()))
    {
      input, output := true, false;
    }

    method PrepareOutput()
      modifies `input, `output
      ensures View() == R.ToOutput(old(View()))
    {
      input, output := false, true;
    }

    /** The states the three programs have in common. */
    method InitRtc(selected: nat)
      requires selected == R.IN || selected == R.OUT
      requires state == R.INIT
      modifies this
      ensures forall v :: View() == R.RootRtc(v, settings, old(View()), false, selected)
    {
      if selected == R.OUT {
        PrepareInput();
      } else {
        PrepareOutput();
        token, state, count := 1, R.INJECTING, 0;
      }
    }

    method FinalRtc(selected: nat)
      requires selected == R.IN || selected == R.OUT
      requires state == R.FINAL
      modifies this
      ensures forall v :: View() == R.RootRtc(v, settings, old(View()), false, selected)
    {
      if selected == R.OUT {
        PrepareInput();
      } else {
        if token != 0 {
          failed := true;
        }
        done := true;
      }
    }

    method Start(first: int)
      modifies this
      ensures View() == R.ToOutput(old(View()).(state := R.INIT, token := first))
    {
      state, token := R.INIT, first;
      PrepareOutput();
    }

    /** COLLECTING in mtring and ring3. */
    method CollectRtc(selected: nat)
      requires selected == R.IN || selected == R.OUT
      requires state == R.COLLECTING
      modifies this
      ensures forall v :: v != R.Single ==> View() == R.RootRtc(v, settings, old(View()), false, selected)
    {
      if selected == R.IN {
        sum := sum + token;
        count := count + 1;
        if count == settings.nrTokens {
          token, state := 0, R.FINAL;
          PrepareOutput();
        }
      } else {
        failed := true;
      }
    }

    /** mtring.c */
    method MtringRtc(initial: bool, selected: nat)
      modifies this
      ensures View() == R.RootRtc(R.Mtring, settings, old(View()), initial, selected)
    {
      if initial {
        Start(1);
      } else if selected == R.IN || selected == R.OUT {
        match state
        case INIT => InitRtc(selected);
        case INJECTING =>
          if selected == R.OUT {
            count := count + 1;
            if count < settings.nrTokens {
              token := token + 1;
            } else {
              state, count := R.CYCLING, 0;
              PrepareInput();
            }
          } else {
            failed := true;
          }
        case CYCLING =>
          if selected == R.IN {
            token := token + 1;
            PrepareOutput();
          } else {
            count := count + 1;
            if count == settings.cycles * settings.ntokens {
              state, count, sum := R.COLLECTING, 0, 0;
            }
            PrepareInput();
          }
        case COLLECTING => CollectRtc(selected);
        case FINAL => FinalRtc(selected);
      }
    }

    /** ring3.c */
    method Ring3Rtc(initial: bool, selected: nat)
      modifies this
      ensures View() == R.RootRtc(R.Ring3, settings, old(View()), initial, selected)
    {
      if initial {
        Start(10);
      } else if selected == R.IN || selected == R.OUT {
        match state
        case INIT => InitRtc(selected);
        case INJECTING =>
          if selected == R.OUT {
            count := count + 1;
            if count == settings.nrTokens {
              state, count := R.CYCLING, 0;
              PrepareInput();
            }
          } else {
            failed := true;
          }
        case CYCLING =>
          if selected == R.IN {
            token := token + 1;
            PrepareOutput();
          } else {
            count := count + 1;
            if count == settings.cycles {
              state, count, sum := R.COLLECTING, 0, 0;
            }
            PrepareInput();
          }
        case COLLECTING => CollectRtc(selected);
        case FINAL => FinalRtc(selected);
      }
    }

    /** ring.c; `sum` holds the token it prints. */
    method SingleRtc(initial: bool, selected: nat)
      modifies this
      ensures View() == R.RootRtc(R.Single, settings, old(View()), initial, selected)
    {
      if initial {
        Start(1);
      } else if selected == R.IN || selected == R.OUT {
        match state
        case INIT => InitRtc(selected);
        case INJECTING =>
          if selected == R.OUT {
            state := R.CYCLING;
            PrepareInput();
          } else {
            failed := true;
          }
        case CYCLING =>
          if selected == R.IN {
            token := token + 1;
            PrepareOutput();
          } else {
            count := count + 1;
            if count == settings.cycles {
              state, count := R.COLLECTING, 0;
            }
            PrepareInput();
          }
        case COLLECTING =>
          if selected == R.IN {
            sum, state, token := token, R.FINAL, 0;
            PrepareOutput();
          } else {
            failed := true;
          }
        case FINAL => FinalRtc(selected);
      }
    }

    method Rtc(v: R.Variant, initial: bool, selected: nat)
      modifies this
      ensures View() == R.RootRtc(v, settings, old(View()), initial, selected)
    {
      match v
      case Mtring => MtringRtc(initial, selected);
      case Ring3 => Ring3Rtc(initial, selected);
      case Single => SingleRtc(initial, selected);
    }
  }
}
