/** The token rings mtring, ring3 and ring: one root and a row of elements, each
    holding at most one token, that communicate in any order. */
module Ring {

  datatype Variant = Mtring | Ring3 | Single

  /** cycles, nrTokens, and the NTOKENS of the program text. */
  datatype Settings = Settings(cycles: nat, nrTokens: nat, ntokens: nat)

  datatype Phase = INIT | INJECTING | CYCLING | COLLECTING | FINAL

  datatype Element = Element(token: int, input: bool, output: bool, done: bool)

  /** `sum` is what the root prints (ring prints its token); `failed` records a call of error(). */
  datatype Root = Root(token: int, count: int, sum: int, state: Phase, input: bool, output: bool, done: bool, failed: bool)

  const IN: nat := 0
  const OUT: nat := 1

  // ---------- the processes' code ----------

  function ElementRtc(e: Element, initial: bool, selected: nat): Element {
    if initial then e.(input := true, output := false)
    else if selected == IN then
      e.(token := if e.token > 0 then e.token + 1 else e.token, input := false, output := true)
    else if selected == OUT then
      e.(done := e.done || e.token == 0, input := true, output := false)
    else e
  }

  function ToInput(r: Root): Root {
    r.(input := true, output := false)
  }

  function ToOutput(r: Root): Root {
    r.(input := false, output := true)
  }

  function Injected(v: Variant, s: Settings, r: Root): Root {
    var count := r.count + 1;
    match v
    case Mtring =>
      if count < s.nrTokens then r.(count := count, token := r.token + 1)
      else ToInput(r.(state := CYCLING, count := 0))
    case Ring3 =>
      if count == s.nrTokens then ToInput(r.(state := CYCLING, count := 0)) else r.(count := count)
    case Single => ToInput(r.(state := CYCLING))
  }

  function Limit(v: Variant, s: Settings): int {
    if v == Mtring then s.cycles * s.ntokens else s.cycles
  }

  function Collected(v: Variant, s: Settings, r: Root): Root {
    match v
    case Single => ToOutput(r.(sum := r.token, token := 0, state := FINAL))
    case _ =>
      var r' := r.(sum := r.sum + r.token, count := r.count + 1);
      if r'.count == s.nrTokens then ToOutput(r'.(token := 0, state := FINAL)) else r'
  }

  function RootRtc(v: Variant, s: Settings, r: Root, initial: bool, selected: nat): Root {
    if initial then ToOutput(r.(state := INIT, token := if v == Ring3 then 10 else 1))
    else if selected != IN && selected != OUT then r
    else
      match r.state
      case INIT =>
        if selected == OUT then ToInput(r) else ToOutput(r.(token := 1, state := INJECTING, count := 0))
      case INJECTING =>
        if selected == OUT then Injected(v, s, r) else r.(failed := true)
      case CYCLING =>
        if selected == IN then ToOutput(r.(token := r.token + 1))
        else
          var count := r.count + 1;
          ToInput(if count == Limit(v, s) then
                    (if v == Single then r.(state := COLLECTING, count := 0) else r.(state := COLLECTING, count := 0, sum := 0))
                  else r.(count := count))
      case COLLECTING =>
        if selected == IN then Collected(v, s, r) else r.(failed := true)
      case FINAL =>
        if selected == OUT then ToInput(r) else r.(failed := r.failed || r.token != 0, done := true)
  }

  // ---------- the ring ----------

  /** `elems[k]` is fed by channel k and feeds channel k + 1; the root feeds
      channel 0 and is fed by channel |elems|. */
  datatype State = State(root: Root, elems: seq<Element>)

  predicate CanSend(st: State, c: nat)
    requires c <= |st.elems|
  {
    if c == 0 then st.root.output && !st.root.done else st.elems[c - 1].output && !st.elems[c - 1].done
  }

  predicate CanReceive(st: State, c: nat)
    requires c <= |st.elems|
  {
    if c == |st.elems| then st.root.input && !st.root.done else st.elems[c].input && !st.elems[c].done
  }

  /** Both ends of channel `c` are ready to communicate. */
  predicate Enabled(st: State, c: nat) {
    c <= |st.elems| && CanSend(st, c) && CanReceive(st, c)
  }

  /** The token crosses channel `c` and both ends run their code. */
  function Next(v: Variant, s: Settings, st: State, c: nat): (st': State)
    requires Enabled(st, c) && 1 <= |st.elems|
    ensures |st'.elems| == |st.elems|
  {
    var n := |st.elems|;
    if c == 0 then
      State(RootRtc(v, s, st.root, false, OUT),
            st.elems[0 := ElementRtc(st.elems[0].(token := st.root.token), false, IN)])
    else if c == n then
      State(RootRtc(v, s, st.root.(token := st.elems[n - 1].token), false, IN),
            st.elems[n - 1 := ElementRtc(st.elems[n - 1], false, OUT)])
    else
      State(st.root, st.elems[c - 1 := ElementRtc(st.elems[c - 1], false, OUT)]
                             [c := ElementRtc(st.elems[c].(token := st.elems[c - 1].token), false, IN)])
  }

  predicate Starts(v: Variant, s: Settings, st: State) {
    && 1 <= |st.elems|
    && st.root.state == INIT && st.root.output && !st.root.input && !st.root.done && !st.root.failed
    && st.root.token == (if v == Ring3 then 10 else 1)
    && forall k :: 0 <= k < |st.elems| ==> st.elems[k].input && !st.elems[k].output && !st.elems[k].done
  }

  // ---------- sums over the elements ----------

  /** The element carries a token that is not the zero token. */
  predicate Carries(e: Element) {
    e.output && !e.done && e.token != 0
  }

  function One(e: Element): int {
    if Carries(e) then 1 else 0
  }

  /** The number of elements from position k on that carry a token. */
  function Tokens(elems: seq<Element>, k: nat): int
    requires k <= |elems|
    decreases |elems| - k
  {
    if k == |elems| then 0 else One(elems[k]) + Tokens(elems, k + 1)
  }

  /** The value a token will have when it reaches the root from position k of n. */
  function Worth(e: Element, k: nat, n: nat): int {
    if Carries(e) then e.token + (n - 1 - k) else 0
  }

  function Value(elems: seq<Element>, k: nat): int
    requires k <= |elems|
    decreases |elems| - k
  {
    if k == |elems| then 0 else Worth(elems[k], k, |elems|) + Value(elems, k + 1)
  }

  /** The number of channels a token at position k of n has still to cross. */
  function Way(e: Element, k: nat, n: nat): int {
    if Carries(e) then n - k else 0
  }

  function Distance(elems: seq<Element>, k: nat): int
    requires k <= |elems|
    decreases |elems| - k
  {
    if k == |elems| then 0 else Way(elems[k], k, |elems|) + Distance(elems, k + 1)
  }

  /** Replacing one element changes the sums by that element's share. */
  lemma {:induction false} Replace(elems: seq<Element>, i: nat, e: Element, k: nat)
    requires i < |elems| && k <= |elems|
    ensures var n, elems' := |elems|, elems[i := e];
            && Tokens(elems', k) == Tokens(elems, k) + (if k <= i then One(e) - One(elems[i]) else 0)
            && Value(elems', k) == Value(elems, k) + (if k <= i then Worth(e, i, n) - Worth(elems[i], i, n) else 0)
            && Distance(elems', k) == Distance(elems, k) + (if k <= i then Way(e, i, n) - Way(elems[i], i, n) else 0)
    decreases |elems| - k
  {
    if k < |elems| {
      Replace(elems, i, e, k + 1);
    }
  }

  lemma {:induction false} TokensRange(elems: seq<Element>, k: nat)
    requires k <= |elems|
    ensures 0 <= Tokens(elems, k) <= |elems| - k
    ensures Tokens(elems, k) == 0 <==> forall j :: k <= j < |elems| ==> !Carries(elems[j])
    ensures Tokens(elems, k) == |elems| - k <==> forall j :: k <= j < |elems| ==> Carries(elems[j])
    ensures (forall j :: k <= j < |elems| ==> !Carries(elems[j])) ==> Value(elems, k) == 0 && Distance(elems, k) == 0
    decreases |elems| - k
  {
    if k < |elems| {
      TokensRange(elems, k + 1);
    }
  }
}
