/** Conservation, deadlock freedom and termination of the token rings, for any
    number of elements and any order of communications. */
module RingLaws {
  import opened Ring

  function TokenCount(v: Variant, s: Settings): nat {
    if v == Single then 1 else s.nrTokens
  }

  /** At least one token, at least one cycle. */
  predicate ValidSettings(v: Variant, s: Settings) {
    1 <= TokenCount(v, s) && 1 <= Limit(v, s)
  }

  /** The sum of the first c tokens the root injects: 1, 2, ... in mtring, ones otherwise. */
  function InjectedSum(v: Variant, c: nat): nat {
    if c == 0 then 0 else InjectedSum(v, c - 1) + (if v == Mtring then c else 1)
  }

  /** x times y, by repeated addition of y. */
  function Times(x: nat, y: int): int {
    if x == 0 then 0 else Times(x - 1, y) + y
  }

  /** What all tokens are worth when they have been collected. */
  function Goal(v: Variant, s: Settings, n: nat): int
    requires ValidSettings(v, s)
  {
    InjectedSum(v, TokenCount(v, s)) + Times(TokenCount(v, s), n) + Times(Limit(v, s), n + 1)
  }

  // ---------- the invariant ----------

  /** Every element waits for a token or offers one that is not zero. */
  predicate Flowing(elems: seq<Element>) {
    forall k :: 0 <= k < |elems| ==>
      !elems[k].done && elems[k].input == !elems[k].output && (elems[k].output ==> elems[k].token > 0)
  }

  predicate Idle(e: Element) {
    e.input && !e.output && !e.done
  }

  /** The zero token is at element z: those before it have terminated, those behind it wait. */
  predicate ZeroAt(elems: seq<Element>, z: nat) {
    && z < |elems| && elems[z].output && !elems[z].input && !elems[z].done && elems[z].token == 0
    && (forall k :: 0 <= k < z ==> elems[k].done)
    && (forall k :: z < k < |elems| ==> Idle(elems[k]))
  }

  predicate InvInit(st: State) {
    && Flowing(st.elems) && st.root.input == !st.root.output
    && (st.root.output ==> st.root.token > 0 && Tokens(st.elems, 0) == 0)
    && (st.root.input ==> Tokens(st.elems, 0) == 1)
  }

  predicate InvInjecting(v: Variant, s: Settings, st: State) {
    var n, c := |st.elems|, st.root.count;
    && Flowing(st.elems) && st.root.output && !st.root.input
    && 0 <= c < TokenCount(v, s) && st.root.token == (if v == Mtring then c + 1 else 1)
    && Tokens(st.elems, 0) == c && Value(st.elems, 0) == InjectedSum(v, c) + Times(c, n)
  }

  predicate InvCycling(v: Variant, s: Settings, st: State) {
    var n, c, t := |st.elems|, st.root.count, TokenCount(v, s);
    && Flowing(st.elems) && st.root.input == !st.root.output && 0 <= c < Limit(v, s)
    && (st.root.input ==>
          Tokens(st.elems, 0) == t && Value(st.elems, 0) == InjectedSum(v, t) + Times(t, n) + Times(c, n + 1))
    && (st.root.output ==>
          Tokens(st.elems, 0) == t - 1 && st.root.token > 0
          && Value(st.elems, 0) + st.root.token == InjectedSum(v, t) + Times(t, n) + Times(c, n + 1) + 1)
  }

  predicate InvCollecting(v: Variant, s: Settings, st: State)
    requires ValidSettings(v, s)
  {
    var n, c := |st.elems|, st.root.count;
    && Flowing(st.elems) && st.root.input && !st.root.output && 0 <= c < TokenCount(v, s)
    && Tokens(st.elems, 0) == TokenCount(v, s) - c
    && Value(st.elems, 0) + (if v == Single then 0 else st.root.sum) == Goal(v, s, n)
  }

  ghost predicate InvFinal(v: Variant, s: Settings, st: State)
    requires ValidSettings(v, s)
  {
    && st.root.sum == Goal(v, s, |st.elems|) && st.root.token == 0 && st.root.input == !st.root.output
    && (st.root.output ==> !st.root.done && forall k :: 0 <= k < |st.elems| ==> Idle(st.elems[k]))
    && (st.root.input && !st.root.done ==> exists z: nat :: ZeroAt(st.elems, z))
    && (st.root.done ==> forall k :: 0 <= k < |st.elems| ==> st.elems[k].done)
  }

  ghost predicate Inv(v: Variant, s: Settings, st: State) {
    && ValidSettings(v, s) && 1 <= |st.elems| && !st.root.failed
    && match st.root.state
       case INIT => !st.root.done && InvInit(st)
       case INJECTING => !st.root.done && InvInjecting(v, s, st)
       case CYCLING => !st.root.done && InvCycling(v, s, st)
       case COLLECTING => !st.root.done && InvCollecting(v, s, st)
       case FINAL => InvFinal(v, s, st)
  }

  // ---------- what a communication does to the elements ----------

  /** A token moves from element k - 1 to element k, which adds one to it. */
  lemma ElementsPass(v: Variant, s: Settings, st: State, c: nat)
    requires Flowing(st.elems) && Enabled(st, c) && 0 < c < |st.elems|
    ensures var elems' := Next(v, s, st, c).elems;
            && Next(v, s, st, c).root == st.root && Flowing(elems')
            && Tokens(elems', 0) == Tokens(st.elems, 0) && Value(elems', 0) == Value(st.elems, 0)
            && Distance(elems', 0) == Distance(st.elems, 0) - 1
  {
    var a := ElementRtc(st.elems[c - 1], false, OUT);
    var b := ElementRtc(st.elems[c].(token := st.elems[c - 1].token), false, IN);
    Replace(st.elems, c - 1, a, 0);
    Replace(st.elems[c - 1 := a], c, b, 0);
  }

  /** The root sends a token to the first element. */
  lemma ElementsGain(v: Variant, s: Settings, st: State)
    requires Flowing(st.elems) && 1 <= |st.elems| && Enabled(st, 0) && st.root.token > 0
    ensures var n, elems' := |st.elems|, Next(v, s, st, 0).elems;
            && Flowing(elems')
            && Tokens(elems', 0) == Tokens(st.elems, 0) + 1
            && Value(elems', 0) == Value(st.elems, 0) + st.root.token + n
            && Distance(elems', 0) == Distance(st.elems, 0) + n
            && Tokens(st.elems, 0) < n
  {
    Replace(st.elems, 0, ElementRtc(st.elems[0].(token := st.root.token), false, IN), 0);
    TokensRange(st.elems, 0);
    assert !Carries(st.elems[0]);
  }

  /** The last element sends its token to the root. */
  lemma ElementsLose(v: Variant, s: Settings, st: State)
    requires Flowing(st.elems) && 1 <= |st.elems| && Enabled(st, |st.elems|)
    ensures var n, elems' := |st.elems|, Next(v, s, st, |st.elems|).elems;
            && Flowing(elems') && st.elems[n - 1].token > 0
            && Tokens(elems', 0) == Tokens(st.elems, 0) - 1
            && Value(elems', 0) == Value(st.elems, 0) - st.elems[n - 1].token
            && Distance(elems', 0) == Distance(st.elems, 0) - 1
            && 0 <= Tokens(elems', 0)
  {
    var n := |st.elems|;
    Replace(st.elems, n - 1, ElementRtc(st.elems[n - 1], false, OUT), 0);
    TokensRange(Next(v, s, st, n).elems, 0);
  }

  // ---------- the measure ----------

  /** The number of communications still to come: each token the root has yet to
      send goes once around, the others go as far as the root. */
  function Remaining(v: Variant, s: Settings, st: State): int
    requires ValidSettings(v, s)
  {
    var n, c, t, l := |st.elems|, st.root.count, TokenCount(v, s), Limit(v, s);
    match st.root.state
    case INIT => Distance(st.elems, 0) + Around(t + l + 1 + if st.root.output then 1 else 0, n)
    case INJECTING => Distance(st.elems, 0) + Around(t - c + l + 1, n)
    case CYCLING => Distance(st.elems, 0) + Around(l - c + 1, n)
    case COLLECTING => Distance(st.elems, 0) + Around(1, n)
    case FINAL => if st.root.done then 0 else if st.root.output then Around(1, n) else |st.elems| - ZeroPlace(st.elems, 0)
  }

  function Around(times: int, n: nat): int {
    if times <= 0 then 0 else Around(times - 1, n) + n + 1
  }

  /** The position of the first element that has not terminated. */
  function ZeroPlace(elems: seq<Element>, k: nat): nat
    requires k <= |elems|
    decreases |elems| - k
  {
    if k == |elems| || !elems[k].done then k else ZeroPlace(elems, k + 1)
  }

  lemma {:induction false} ZeroPlaceIs(elems: seq<Element>, z: nat, k: nat)
    requires ZeroAt(elems, z) && k <= z
    ensures ZeroPlace(elems, k) == z
    decreases z - k
  {
    if k < z {
      ZeroPlaceIs(elems, z, k + 1);
    }
  }

  // ---------- one communication ----------

  lemma StepPass(v: Variant, s: Settings, st: State, c: nat)
    requires Inv(v, s, st) && Enabled(st, c) && 0 < c < |st.elems| && st.root.state != FINAL
    ensures var st' := Next(v, s, st, c); Inv(v, s, st') && Remaining(v, s, st') == Remaining(v, s, st) - 1
  {
    ElementsPass(v, s, st, c);
  }

  lemma StepSend(v: Variant, s: Settings, st: State)
    requires Inv(v, s, st) && Enabled(st, 0) && st.root.state in {INIT, CYCLING}
    ensures var st' := Next(v, s, st, 0); Inv(v, s, st') && Remaining(v, s, st') == Remaining(v, s, st) - 1
  {
    ElementsGain(v, s, st);
  }

  lemma StepInject(v: Variant, s: Settings, st: State)
    requires Inv(v, s, st) && Enabled(st, 0) && st.root.state == INJECTING
    ensures var st' := Next(v, s, st, 0); Inv(v, s, st') && Remaining(v, s, st') == Remaining(v, s, st) - 1
  {
    ElementsGain(v, s, st);
    OneInjected(v, st.root.count, |st.elems|);
  }

  lemma OneInjected(v: Variant, c: nat, n: nat)
    ensures InjectedSum(v, c + 1) == InjectedSum(v, c) + (if v == Mtring then c + 1 else 1)
    ensures Times(c + 1, n) == Times(c, n) + n
  {
  }

  lemma StepReceive(v: Variant, s: Settings, st: State)
    requires Inv(v, s, st) && Enabled(st, |st.elems|) && st.root.state != FINAL
    ensures var st' := Next(v, s, st, |st.elems|); Inv(v, s, st') && Remaining(v, s, st') == Remaining(v, s, st) - 1
  {
    ElementsLose(v, s, st);
    TokensRange(Next(v, s, st, |st.elems|).elems, 0);
  }

  lemma StepFinal(v: Variant, s: Settings, st: State, c: nat)
    requires Inv(v, s, st) && Enabled(st, c) && st.root.state == FINAL
    ensures var st' := Next(v, s, st, c); Inv(v, s, st') && Remaining(v, s, st') == Remaining(v, s, st) - 1
  {
    var st', n := Next(v, s, st, c), |st.elems|;
    if st.root.output {
      assert c == 0;
      assert ZeroAt(st'.elems, 0);
      assert Around(1, n) == Around(0, n) + n + 1;
      ZeroPlaceIs(st'.elems, 0, 0);
    } else {
      var z: nat :| ZeroAt(st.elems, z);
      assert c == z + 1;
      ZeroPlaceIs(st.elems, z, 0);
      if c < n {
        assert ZeroAt(st'.elems, c);
        ZeroPlaceIs(st'.elems, c, 0);
      }
    }
  }

  /** Every communication keeps the invariant and is one fewer to come. */
  lemma StepInv(v: Variant, s: Settings, st: State, c: nat)
    requires Inv(v, s, st) && Enabled(st, c)
    ensures var st' := Next(v, s, st, c); Inv(v, s, st') && Remaining(v, s, st') == Remaining(v, s, st) - 1
  {
    if st.root.state == FINAL {
      StepFinal(v, s, st, c);
    } else if c == 0 && st.root.state == INJECTING {
      StepInject(v, s, st);
    } else if c == 0 {
      StepSend(v, s, st);
    } else if c == |st.elems| {
      StepReceive(v, s, st);
    } else {
      StepPass(v, s, st, c);
    }
  }

  // ---------- deadlock ----------

  predicate CanMove(st: State) {
    exists c :: 0 <= c <= |st.elems| && Enabled(st, c)
  }

  /** Among flowing elements, the one in front of the first waiting element can move. */
  lemma {:induction false} SomeoneMoves(st: State, k: nat)
    requires Flowing(st.elems) && k <= |st.elems| && CanSend(st, k)
    requires (exists j :: k <= j < |st.elems| && st.elems[j].input) || CanReceive(st, |st.elems|)
    ensures CanMove(st)
    decreases |st.elems| - k
  {
    if k == |st.elems| || st.elems[k].input {
      assert Enabled(st, k);
    } else {
      SomeoneMoves(st, k + 1);
    }
  }

  /** While the tokens are fewer than the processes of the ring, some channel can
      always communicate until all processes have terminated. */
  lemma NoDeadlock(v: Variant, s: Settings, st: State)
    requires Inv(v, s, st) && TokenCount(v, s) <= |st.elems| && !st.root.done
    ensures CanMove(st)
  {
    TokensRange(st.elems, 0);
    if st.root.state == FINAL {
      if st.root.output {
        assert Enabled(st, 0);
      } else {
        var z: nat :| ZeroAt(st.elems, z);
        assert Enabled(st, z + 1);
      }
    } else if st.root.output {
      var j :| 0 <= j < |st.elems| && !Carries(st.elems[j]);
      assert st.elems[j].input;
      SomeoneMoves(st, 0);
    } else {
      var j :| 0 <= j < |st.elems| && Carries(st.elems[j]);
      SomeoneMoves(st, j + 1);
    }
  }

  /** With as many tokens as processes or more, the root never gets past injecting. */
  lemma TooManyTokens(v: Variant, s: Settings, st: State)
    requires Inv(v, s, st) && TokenCount(v, s) > |st.elems| && st.root.state in {INIT, INJECTING}
    ensures forall c :: Enabled(st, c) ==> Next(v, s, st, c).root.state in {INIT, INJECTING}
  {
    forall c | Enabled(st, c) ensures Next(v, s, st, c).root.state in {INIT, INJECTING} {
      if c == 0 {
        ElementsGain(v, s, st);
      }
    }
  }

  // ---------- whole runs ----------

  lemma {:induction false} IdleTokens(elems: seq<Element>)
    requires forall k :: 0 <= k < |elems| ==> Idle(elems[k])
    ensures Tokens(elems, 0) == 0 && Value(elems, 0) == 0 && Distance(elems, 0) == 0
  {
    TokensRange(elems, 0);
  }

  lemma StartInv(v: Variant, s: Settings, st: State)
    requires ValidSettings(v, s) && Starts(v, s, st)
    ensures Inv(v, s, st)
    ensures Remaining(v, s, st) == Around(TokenCount(v, s) + Limit(v, s) + 2, |st.elems|)
  {
    IdleTokens(st.elems);
  }

  /** `cs` are channels that communicate one after the other from `st`. */
  ghost predicate IsRun(v: Variant, s: Settings, st: State, cs: seq<nat>)
    decreases |cs|
  {
    cs == [] || (1 <= |st.elems| && Enabled(st, cs[0]) && IsRun(v, s, Next(v, s, st, cs[0]), cs[1..]))
  }

  ghost function After(v: Variant, s: Settings, st: State, cs: seq<nat>): (st': State)
    requires IsRun(v, s, st, cs)
    ensures |st'.elems| == |st.elems|
    decreases |cs|
  {
    if cs == [] then st else After(v, s, Next(v, s, st, cs[0]), cs[1..])
  }

  lemma {:induction false} RunInv(v: Variant, s: Settings, st: State, cs: seq<nat>)
    requires Inv(v, s, st) && IsRun(v, s, st, cs)
    ensures Inv(v, s, After(v, s, st, cs))
    ensures Remaining(v, s, After(v, s, st, cs)) == Remaining(v, s, st) - |cs|
    decreases |cs|
  {
    if cs != [] {
      StepInv(v, s, st, cs[0]);
      RunInv(v, s, Next(v, s, st, cs[0]), cs[1..]);
    }
  }

  lemma RemainingNonNegative(v: Variant, s: Settings, st: State)
    requires Inv(v, s, st)
    ensures 0 <= Remaining(v, s, st) && (Remaining(v, s, st) == 0 <==> st.root.done)
  {
    DistanceNonNegative(st.elems, 0);
    if st.root.state == FINAL && st.root.input && !st.root.done {
      var z: nat :| ZeroAt(st.elems, z);
      ZeroPlaceIs(st.elems, z, 0);
    }
    AroundPositive(v, s, st);
  }

  lemma {:induction false} DistanceNonNegative(elems: seq<Element>, k: nat)
    requires k <= |elems|
    ensures 0 <= Distance(elems, k)
    decreases |elems| - k
  {
    if k < |elems| {
      DistanceNonNegative(elems, k + 1);
    }
  }

  lemma {:induction false} AroundGrows(times: int, n: nat)
    ensures Around(times, n) >= 0 && (times >= 1 ==> Around(times, n) >= n + 1)
    decreases times
  {
    if times >= 1 {
      AroundGrows(times - 1, n);
    }
  }

  lemma AroundPositive(v: Variant, s: Settings, st: State)
    requires ValidSettings(v, s)
    ensures forall times :: Around(times, |st.elems|) >= 0 && (times >= 1 ==> Around(times, |st.elems|) >= |st.elems| + 1)
  {
    forall times: int ensures Around(times, |st.elems|) >= 0 && (times >= 1 ==> Around(times, |st.elems|) >= |st.elems| + 1) {
      AroundGrows(times, |st.elems|);
    }
  }

  /** Every run is finite; one that cannot be continued has exactly the same
      length whatever the order, has terminated every process and has printed the
      sum of the tokens. */
  lemma RingResult(v: Variant, s: Settings, st: State, cs: seq<nat>)
    requires ValidSettings(v, s) && Starts(v, s, st) && IsRun(v, s, st, cs) && TokenCount(v, s) <= |st.elems|
    ensures var st', n := After(v, s, st, cs), |st.elems|;
            && |cs| <= Around(TokenCount(v, s) + Limit(v, s) + 2, n)
            && !st'.root.failed
            && (!CanMove(st') <==> |cs| == Around(TokenCount(v, s) + Limit(v, s) + 2, n))
            && (!CanMove(st') ==>
                  && st'.root.done && (forall k :: 0 <= k < n ==> st'.elems[k].done)
                  && st'.root.sum == Goal(v, s, n))
  {
    var st' := After(v, s, st, cs);
    StartInv(v, s, st);
    RunInv(v, s, st, cs);
    RemainingNonNegative(v, s, st');
    if !st'.root.done {
      NoDeadlock(v, s, st');
    }
  }

  /** With T > N - 1 tokens no run ever prints a sum, and every run still ends. */
  lemma {:induction false} RingOverfull(v: Variant, s: Settings, st: State, cs: seq<nat>)
    requires Inv(v, s, st) && IsRun(v, s, st, cs) && TokenCount(v, s) > |st.elems| && st.root.state in {INIT, INJECTING}
    ensures After(v, s, st, cs).root.state in {INIT, INJECTING} && |cs| <= Remaining(v, s, st)
    decreases |cs|
  {
    RemainingNonNegative(v, s, st);
    if cs != [] {
      StepInv(v, s, st, cs[0]);
      TooManyTokens(v, s, st);
      RingOverfull(v, s, Next(v, s, st, cs[0]), cs[1..]);
    }
  }

  /** A ring completes exactly when it has fewer tokens than processes. */
  lemma RingCompletes(v: Variant, s: Settings, st: State, cs: seq<nat>)
    requires ValidSettings(v, s) && Starts(v, s, st) && IsRun(v, s, st, cs) && !CanMove(After(v, s, st, cs))
    ensures After(v, s, st, cs).root.done <==> TokenCount(v, s) <= |st.elems|
  {
    StartInv(v, s, st);
    RunInv(v, s, st, cs);
    if TokenCount(v, s) <= |st.elems| {
      RingResult(v, s, st, cs);
    } else {
      RingOverfull(v, s, st, cs);
    }
  }

  // ---------- the sums in closed form ----------

  lemma {:induction false} TimesIsProduct(x: nat, y: int)
    ensures Times(x, y) == x * y
  {
    if x > 0 {
      TimesIsProduct(x - 1, y);
      assert (x - 1) * y + y == x * y;
    }
  }

  lemma {:induction false} InjectedSumIs(v: Variant, c: nat)
    ensures 2 * InjectedSum(v, c) == if v == Mtring then c * (c + 1) else 2 * c
  {
    if c > 0 {
      InjectedSumIs(v, c - 1);
      assert (c - 1) * c + 2 * c == c * (c + 1);
    }
  }

  lemma {:induction false} AroundIs(times: nat, n: nat)
    ensures Around(times, n) == times * (n + 1)
  {
    if times > 0 {
      AroundIs(times - 1, n);
      assert (times - 1) * (n + 1) + (n + 1) == times * (n + 1);
    }
  }

  /** With n + 1 processes, T tokens and C cycles: T(T+1)/2 + (T + CT)n + CT in mtring,
      T + (T + C)n + C in ring3 and (n + 1)(C + 1) in ring. */
  lemma GoalIs(v: Variant, s: Settings, n: nat)
    requires ValidSettings(v, s)
    ensures var t, c, k := s.nrTokens, s.cycles, s.cycles * s.ntokens;
            && (v == Mtring ==> 2 * Goal(v, s, n) == t * (t + 1) + 2 * ((t + k) * n + k))
            && (v == Ring3 ==> Goal(v, s, n) == t + (t + c) * n + c)
            && (v == Single ==> Goal(v, s, n) == (n + 1) * (c + 1))
  {
    var t, l := TokenCount(v, s), Limit(v, s);
    InjectedSumIs(v, t);
    TimesIsProduct(t, n);
    TimesIsProduct(l, n + 1);
    assert t * n + l * (n + 1) == (t + l) * n + l;
    assert (n + 1) * (l + 1) == 1 + n + l * (n + 1);
  }

  /** The three programs, in the constants of their texts: a run that cannot be
      continued has this many communications and has printed this sum. */
  lemma ProgramsPrint(v: Variant, s: Settings, st: State, cs: seq<nat>)
    requires 1 <= s.cycles && (v == Mtring ==> 1 <= s.ntokens) && (v != Single ==> 1 <= s.nrTokens <= |st.elems|)
    requires Starts(v, s, st) && IsRun(v, s, st, cs) && !CanMove(After(v, s, st, cs))
    ensures var n, t, c, k, sum := |st.elems|, s.nrTokens, s.cycles, s.cycles * s.ntokens, After(v, s, st, cs).root.sum;
            && (v == Mtring ==> 2 * sum == t * (t + 1) + 2 * ((t + k) * n + k) && |cs| == (t + k + 2) * (n + 1))
            && (v == Ring3 ==> sum == t + (t + c) * n + c && |cs| == (t + c + 2) * (n + 1))
            && (v == Single ==> sum == (n + 1) * (c + 1) && |cs| == (c + 3) * (n + 1))
  {
    CyclesPositive(s.cycles, s.ntokens);
    RingResult(v, s, st, cs);
    GoalIs(v, s, |st.elems|);
    AroundIs(TokenCount(v, s) + Limit(v, s) + 2, |st.elems|);
  }

  lemma CyclesPositive(c: nat, k: nat)
    ensures 1 <= c && 1 <= k ==> 1 <= c * k
  {
  }

  /** The first token the root sends makes one round before any is injected. */
  lemma FirstTokens(s: Settings, r: Root)
    ensures RootRtc(Mtring, s, r, true, 0) == r.(state := INIT, token := 1, input := false, output := true)
    ensures RootRtc(Ring3, s, r, true, 0) == r.(state := INIT, token := 10, input := false, output := true)
    ensures RootRtc(Single, s, r, true, 0) == r.(state := INIT, token := 1, input := false, output := true)
  {
  }

  /** mtring as configured: 255 elements, 64 tokens and 10000 cycles. The sum fits a 32-bit int. */
  lemma DefaultSum()
    ensures Goal(Mtring, Settings(10000, 64, 64), 255) == 163858400 < 0x8000_0000
  {
    GoalIs(Mtring, Settings(10000, 64, 64), 255);
  }
}
