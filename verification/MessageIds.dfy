/** Message ids of a `Context`: a random base and a counter over a random range, redrawn
    when the range is used up. */
module MessageIds {
  import opened Protocol

  const LIMIT := 0x1_0000_0000   // 2 ** 32

  /** What `_reset_msgid` draws: 24 hexadecimal digits of a fresh uuid, a counter, and a
      stop not below it. */
  datatype Draw = Draw(base: string, counter: int, stop: int)

  predicate IsDraw(d: Draw) {
    |d.base| == 24 && 0 <= d.counter <= d.stop < LIMIT
  }

  const DIGITS := "0123456789abcdef"

  /** `'{0:x}'` */
  function Hex(n: nat): (r: string)
    ensures r != []
  {
    (if n < 16 then [] else Hex(n / 16)) + [DIGITS[n % 16]]
  }

  function Zeros(n: nat): (r: string)
    ensures |r| == n
  {
    if n == 0 then [] else "0" + Zeros(n - 1)
  }

  /** `'{0:08x}'` */
  function Hex8(n: nat): string {
    var h := Hex(n);
    if |h| < 8 then Zeros(8 - |h|) + h else h
  }

  // ---- reading it back ------------------------------------------------------------

  function DigitValue(c: char): int {
    if '0' <= c <= '9' then c as int - '0' as int
    else if 'a' <= c <= 'f' then c as int - 'a' as int + 10 else 0
  }

  function ValueOf(s: string): int {
    if s == [] then 0 else ValueOf(s[..|s| - 1]) * 16 + DigitValue(s[|s| - 1])
  }

  lemma DigitRoundTrip(k: int)
    requires 0 <= k < 16
    ensures DigitValue(DIGITS[k]) == k
  {
  }

  lemma {:induction false} HexRoundTrip(n: nat)
    ensures ValueOf(Hex(n)) == n
  {
    DigitRoundTrip(n % 16);
    var init := if n < 16 then [] else Hex(n / 16);
    assert Hex(n)[..|Hex(n)| - 1] == init;
    if n >= 16 {
      HexRoundTrip(n / 16);
    }
  }

  lemma {:induction false} LeadingZeros(k: nat, s: string)
    ensures ValueOf(Zeros(k) + s) == ValueOf(s)
    decreases |s|, k
  {
    var t := Zeros(k) + s;
    if s != [] {
      assert t[..|t| - 1] == Zeros(k) + s[..|s| - 1];
      LeadingZeros(k, s[..|s| - 1]);
    } else if k > 0 {
      ZerosSnoc(k);
      assert t == Zeros(k - 1) + "0" && t[..|t| - 1] == Zeros(k - 1) + s;
      LeadingZeros(k - 1, s);
    }
  }

  lemma {:induction false} ZerosSnoc(k: nat)
    requires k > 0
    ensures Zeros(k) == Zeros(k - 1) + "0"
  {
    if k > 1 {
      ZerosSnoc(k - 1);
    }
  }

  function Pow16(k: nat): nat {
    if k == 0 then 1 else 16 * Pow16(k - 1)
  }

  lemma {:induction false} HexLength(n: nat, k: nat)
    requires k > 0 && n < Pow16(k)
    ensures |Hex(n)| <= k
    decreases k
  {
    if n >= 16 {
      HexLength(n / 16, k - 1);
    }
  }

  lemma {:induction false} AllDigits(n: nat)
    ensures forall c :: c in Hex(n) ==> c in DIGITS
  {
    if n >= 16 {
      AllDigits(n / 16);
    }
  }

  lemma {:induction false} ZerosAreDigits(n: nat)
    ensures forall c :: c in Zeros(n) ==> c == '0'
  {
    if n > 0 {
      ZerosAreDigits(n - 1);
    }
  }

  /** Eight lower-case hexadecimal digits that read back as the number. */
  lemma Hex8ReadsBack(n: nat)
    requires n < LIMIT
    ensures |Hex8(n)| == 8 && ValueOf(Hex8(n)) == n
    ensures forall c :: c in Hex8(n) ==> '0' <= c <= '9' || 'a' <= c <= 'f'
  {
    Hex8IsInjective(n, n);
    Hex8Value(n);
    AllDigits(n);
    ZerosAreDigits(if |Hex(n)| < 8 then 8 - |Hex(n)| else 0);
    assert forall c :: c in DIGITS ==> '0' <= c <= '9' || 'a' <= c <= 'f';
  }

  lemma Hex8Value(n: nat)
    ensures ValueOf(Hex8(n)) == n
  {
    HexRoundTrip(n);
    LeadingZeros(if |Hex(n)| < 8 then 8 - |Hex(n)| else 0, Hex(n));
  }

  /** Fixed width, and no two counters with the same text. */
  lemma Hex8IsInjective(m: nat, n: nat)
    requires m < LIMIT && n < LIMIT
    ensures |Hex8(m)| == 8
    ensures Hex8(m) == Hex8(n) <==> m == n
  {
    assert Pow16(8) == LIMIT;
    HexLength(m, 8);
    HexRoundTrip(m);
    HexRoundTrip(n);
    LeadingZeros(if |Hex(m)| < 8 then 8 - |Hex(m)| else 0, Hex(m));
    LeadingZeros(if |Hex(n)| < 8 then 8 - |Hex(n)| else 0, Hex(n));
    assert Zeros(0) + Hex(m) == Hex(m) && Zeros(0) + Hex(n) == Hex(n);
  }

  // ---- the generator ----------------------------------------------------------------

  /** The state after `new_msgid`; `d` is drawn only when the range is used up. */
  function Next(g: Draw, d: Draw): Draw {
    if g.counter >= g.stop then d else g.(counter := g.counter + 1)
  }

  function IdOf(g: Draw): Id
    requires IsDraw(g)
  {
    Hex8(g.counter) + g.base
  }

  class Generator {
    var base: string
    var counter: int
    var stop: int

    function State(): Draw
      reads this
    {
      Draw(base, counter, stop)
    }

    constructor (d: Draw)
      requires IsDraw(d)
      ensures State() == d
    {
      base, counter, stop := d.base, d.counter, d.stop;
    }

    method ResetMsgid(d: Draw)
      requires IsDraw(d)
      modifies this
      ensures State() == d && IsDraw(State())
    {
      base, counter, stop := d.base, d.counter, d.stop;
    }

    method NewMsgid(d: Draw) returns (id: Id)
      requires IsDraw(State()) && IsDraw(d)
      modifies this
      ensures State() == Next(old(State()), d) && IsDraw(State())
      ensures id == IdOf(State())
      ensures |id| == 32 && id[8..] == base
    {
      if counter >= stop {
        ResetMsgid(d);
      } else {
        counter := counter + 1;
      }
      id := Hex8(counter) + base;
      Hex8IsInjective(counter, counter);
    }
  }

  /** A generator in the middle of its run: its state, and how many times it was reset. */
  datatype Run = Run(state: Draw, resets: nat)

  /** After `n` calls; the k-th reset draws `draws(k)`. */
  function After(r: Run, draws: nat -> Draw, n: nat): Run
    decreases n
  {
    if n == 0 then r
    else
      var p := After(r, draws, n - 1);
      Run(Next(p.state, draws(p.resets)), if p.state.counter >= p.state.stop then p.resets + 1 else p.resets)
  }

  ghost predicate GoodDraws(draws: nat -> Draw) {
    forall i: nat :: IsDraw(draws(i))
  }

  /** `q` is `n` calls after `r`: within one range the counter has moved on by the number of
      calls, and after a reset the base is the one drawn there.  There is a reset exactly if
      the calls are more than the range has left. */
  ghost predicate Later(r: Run, q: Run, draws: nat -> Draw, n: nat) {
    && IsDraw(q.state)
    && r.resets <= q.resets
    && (q.resets == r.resets ==> q.state.base == r.state.base && q.state.counter == r.state.counter + n)
    && (q.resets > r.resets ==> q.state.base == draws(q.resets - 1).base)
    && (q.resets == r.resets ==> q.state.stop == r.state.stop)
    && (q.resets == r.resets <==> n <= r.state.stop - r.state.counter)
  }

  lemma {:induction false} RangeOrReset(r: Run, draws: nat -> Draw, n: nat)
    requires IsDraw(r.state) && GoodDraws(draws)
    ensures Later(r, After(r, draws, n), draws, n)
    decreases n
  {
    if n > 0 {
      RangeOrReset(r, draws, n - 1);
    }
  }

  /** After a reset the ids go on from the counter drawn there: some number of calls ago the
      state was that draw, and the counter has moved on by as many. */
  lemma {:induction false} ResetStartsRange(r: Run, draws: nat -> Draw, n: nat) returns (ago: nat)
    requires IsDraw(r.state) && GoodDraws(draws) && After(r, draws, n).resets > r.resets
    ensures ago < n && After(r, draws, n - ago).state == draws(After(r, draws, n).resets - 1)
    ensures After(r, draws, n).state.counter == draws(After(r, draws, n).resets - 1).counter + ago
    decreases n
  {
    var p := After(r, draws, n - 1);
    if p.state.counter >= p.state.stop {
      ago := 0;
    } else {
      var before := ResetStartsRange(r, draws, n - 1);
      ago := before + 1;
    }
  }

  lemma {:induction false} AfterAdds(r: Run, draws: nat -> Draw, m: nat, n: nat)
    ensures After(r, draws, m + n) == After(After(r, draws, m), draws, n)
    decreases n
  {
    if n > 0 {
      AfterAdds(r, draws, m, n - 1);
    }
  }

  /** Two ids are equal exactly when base and counter are. */
  lemma IdIsInjective(g: Draw, h: Draw)
    requires IsDraw(g) && IsDraw(h)
    ensures IdOf(g) == IdOf(h) <==> g.base == h.base && g.counter == h.counter
    ensures |IdOf(g)| == 32
  {
    Hex8IsInjective(g.counter, h.counter);
    Hex8IsInjective(h.counter, g.counter);
    assert IdOf(g)[..8] == Hex8(g.counter) && IdOf(g)[8..] == g.base;
    assert IdOf(h)[..8] == Hex8(h.counter) && IdOf(h)[8..] == h.base;
  }

  /** The bases of a run up to its reset number `resets`: the first one, and the ones drawn. */
  ghost predicate BasesDistinct(r: Run, draws: nat -> Draw, resets: nat) {
    && (forall i: nat :: r.resets <= i < resets ==> draws(i).base != r.state.base)
    && (forall i: nat, j: nat :: r.resets <= i < j < resets ==> draws(i).base != draws(j).base)
  }

  lemma LaterIdDiffers(r: Run, p: Run, q: Run, draws: nat -> Draw, m: nat, n: nat)
    requires BasesDistinct(r, draws, q.resets) && n > 0 && Later(r, p, draws, m) && Later(p, q, draws, n)
    ensures IdOf(p.state) != IdOf(q.state)
  {
    IdIsInjective(p.state, q.state);
  }

  lemma LaterCallDiffers(r: Run, draws: nat -> Draw, x: nat, n: nat)
    requires IsDraw(r.state) && GoodDraws(draws) && n > 0
    requires BasesDistinct(r, draws, After(After(r, draws, x), draws, n).resets)
    ensures IsDraw(After(r, draws, x).state) && IsDraw(After(After(r, draws, x), draws, n).state)
    ensures IdOf(After(r, draws, x).state) != IdOf(After(After(r, draws, x), draws, n).state)
  {
    var p := After(r, draws, x);
    var q := After(p, draws, n);
    RangeOrReset(r, draws, x);
    RangeOrReset(p, draws, n);
    LaterIdDiffers(r, p, q, draws, x, n);
  }

  /** In every run the ids that any two calls issue are different, provided the bases drawn up
      to the later call are. */
  lemma IdsAreUnique(r: Run, draws: nat -> Draw, x: nat, n: nat)
    requires IsDraw(r.state) && GoodDraws(draws) && n > 0 && BasesDistinct(r, draws, After(r, draws, x + n).resets)
    ensures IsDraw(After(r, draws, x).state) && IsDraw(After(r, draws, x + n).state)
    ensures IdOf(After(r, draws, x).state) != IdOf(After(r, draws, x + n).state)
  {
    AfterAdds(r, draws, x, n);
    LaterCallDiffers(r, draws, x, n);
  }
}
