/** itertools.combinations and math.comb: every choice of k of the numbers lo..n-1, in lexicographic order. */
module Combinations {
  function Binom(n: nat, k: nat): nat {
    if k == 0 then 1 else if n == 0 then 0 else Binom(n - 1, k - 1) + Binom(n - 1, k)
  }

  function Factorial(n: nat): nat { if n == 0 then 1 else n * Factorial(n - 1) }

  /** k choices among n, each naming one of its members, are n members each joined by k-1 of the others. */
  lemma {:induction false} Absorption(n: nat, k: nat)
    requires n >= 1 && k >= 1
    ensures k * Binom(n, k) == n * Binom(n - 1, k - 1)
  {
    var a, b := Binom(n - 1, k - 1), Binom(n - 1, k);
    if n == 1 {
      assert b == 0;
      assert k > 1 ==> a == 0;
      assert Binom(n, k) == a + b;
    } else {
      Absorption(n - 1, k);
      if k == 1 {
        assert a == 1 && b == n - 1;
      } else {
        Absorption(n - 1, k - 1);
        var c, d := Binom(n - 2, k - 2), Binom(n - 2, k - 1);
        assert a == c + d;
        Collect(n, k, a, b, c, d);
      }
    }
  }

  lemma Collect(n: nat, k: nat, a: nat, b: nat, c: nat, d: nat)
    requires k * b == (n - 1) * d && (k - 1) * a == (n - 1) * c && a == c + d
    ensures k * (a + b) == n * a
  {
    calc {
      k * (a + b);
      a + (k - 1) * a + k * b;
      a + (n - 1) * c + (n - 1) * d;
      a + (n - 1) * (c + d);
      n * a;
    }
  }

  /** The recurrence computes n! / (k! (n-k)!). */
  lemma {:induction false} BinomIsFactorialQuotient(n: nat, k: nat)
    requires k <= n
    ensures Binom(n, k) * (Factorial(k) * Factorial(n - k)) == Factorial(n)
  {
    if k == 0 {
    } else {
      BinomIsFactorialQuotient(n - 1, k - 1);
      Absorption(n, k);
      Quotient(n, k, Binom(n, k), Binom(n - 1, k - 1), Factorial(k - 1), Factorial(n - k), Factorial(n - 1));
    }
  }

  lemma Quotient(n: nat, k: nat, c: nat, c': nat, f: nat, g: nat, h: nat)
    requires k * c == n * c' && c' * (f * g) == h
    ensures c * ((k * f) * g) == n * h
  {
    calc {
      c * ((k * f) * g);
      (k * c) * (f * g);
      n * c' * (f * g);
      n * (c' * (f * g));
    }
  }

  // --- the choices ---------------------------------------------------------------------------------

  function Prepend(x: int, cs: seq<seq<int>>): seq<seq<int>> { seq(|cs|, i requires 0 <= i < |cs| => [x] + cs[i]) }

  function Choices(lo: nat, n: nat, k: nat): seq<seq<int>>
    decreases n - lo
  {
    if k == 0 then [[]]
    else if lo >= n then []
    else Prepend(lo, Choices(lo + 1, n, k - 1)) + Choices(lo + 1, n, k)
  }

  predicate Increasing(s: seq<int>) { forall i, j :: 0 <= i < j < |s| ==> s[i] < s[j] }

  predicate Choice(c: seq<int>, lo: nat, n: nat, k: nat) {
    |c| == k && Increasing(c) && forall i :: 0 <= i < |c| ==> lo <= c[i] < n
  }

  predicate Before(a: seq<int>, b: seq<int>) {
    a != [] && b != [] && (a[0] < b[0] || (a[0] == b[0] && Before(a[1..], b[1..])))
  }

  lemma {:induction false} ChoicesCounted(lo: nat, n: nat, k: nat)
    requires lo <= n
    ensures |Choices(lo, n, k)| == Binom(n - lo, k)
    decreases n - lo
  {
    if k == 0 || lo >= n {
    } else {
      ChoicesCounted(lo + 1, n, k - 1);
      ChoicesCounted(lo + 1, n, k);
    }
  }

  lemma {:induction false} EachIsChoice(lo: nat, n: nat, k: nat)
    ensures forall c :: c in Choices(lo, n, k) ==> Choice(c, lo, n, k)
    decreases n - lo
  {
    if k == 0 || lo >= n {
    } else {
      var with, without := Choices(lo + 1, n, k - 1), Choices(lo + 1, n, k);
      forall c | c in Choices(lo, n, k) ensures Choice(c, lo, n, k) {
        var i :| 0 <= i < |Choices(lo, n, k)| && Choices(lo, n, k)[i] == c;
        if i < |with| {
          EachIsChoice(lo + 1, n, k - 1);
          assert with[i] in with;
          JoinLeast(lo, with[i], n, k - 1);
        } else {
          EachIsChoice(lo + 1, n, k);
          assert c in without;
        }
      }
    }
  }

  lemma JoinLeast(lo: nat, c: seq<int>, n: nat, k: nat)
    requires Choice(c, lo + 1, n, k) && lo < n
    ensures Choice([lo] + c, lo, n, k + 1)
  {
  }

  lemma {:induction false} EveryChoiceListed(c: seq<int>, lo: nat, n: nat, k: nat)
    requires Choice(c, lo, n, k)
    ensures c in Choices(lo, n, k)
    decreases n - lo
  {
    if k == 0 {
    } else {
      var with := Choices(lo + 1, n, k - 1);
      if c[0] == lo {
        EveryChoiceListed(c[1..], lo + 1, n, k - 1);
        var i :| 0 <= i < |with| && with[i] == c[1..];
        assert Choices(lo, n, k)[i] == c;
      } else {
        EveryChoiceListed(c, lo + 1, n, k);
      }
    }
  }

  /** The i-th choice: those with `lo` first, then those without. */
  lemma ChoiceAt(lo: nat, n: nat, k: nat, i: nat)
    requires k > 0 && lo < n && i < |Choices(lo, n, k)|
    ensures var with := Choices(lo + 1, n, k - 1);
            if i < |with| then Choices(lo, n, k)[i] == [lo as int] + with[i]
            else i - |with| < |Choices(lo + 1, n, k)| && Choices(lo, n, k)[i] == Choices(lo + 1, n, k)[i - |with|]
  {
    assert Choices(lo, n, k) == Prepend(lo, Choices(lo + 1, n, k - 1)) + Choices(lo + 1, n, k);
  }

  /** In strict lexicographic order, so none is listed twice. */
  lemma {:induction false} ChoicesOrdered(lo: nat, n: nat, k: nat, i: nat, j: nat)
    requires i < j < |Choices(lo, n, k)|
    ensures Before(Choices(lo, n, k)[i], Choices(lo, n, k)[j])
    decreases n - lo
  {
    var with, without := Choices(lo + 1, n, k - 1), Choices(lo + 1, n, k);
    ChoiceAt(lo, n, k, i);
    ChoiceAt(lo, n, k, j);
    if j < |with| {
      ChoicesOrdered(lo + 1, n, k - 1, i, j);
      BeforeJoined(lo, with[i], with[j]);
    } else if i >= |with| {
      ChoicesOrdered(lo + 1, n, k, i - |with|, j - |with|);
    } else {
      assert without[j - |with|] in without;
      assert Choice(without[j - |with|], lo + 1, n, k) by { EachIsChoice(lo + 1, n, k); }
    }
  }

  lemma BeforeJoined(x: int, a: seq<int>, b: seq<int>)
    requires Before(a, b)
    ensures Before([x] + a, [x] + b)
  {
    assert ([x] + a)[1..] == a && ([x] + b)[1..] == b;
  }

  lemma {:induction false} BeforeDiffers(a: seq<int>, b: seq<int>)
    requires Before(a, b)
    ensures a != b
  {
    if a[0] != b[0] {
    } else {
      BeforeDiffers(a[1..], b[1..]);
    }
  }

  /** The choices are exactly the k-subsets of the blocks, each listed once and in lexicographic order. */
  lemma ChoicesEnumerate(count: nat, k: nat)
    ensures forall c :: c in Choices(0, count, k) <==> Choice(c, 0, count, k)
    ensures forall i, j :: 0 <= i < j < |Choices(0, count, k)| ==>
              Before(Choices(0, count, k)[i], Choices(0, count, k)[j])
              && Choices(0, count, k)[i] != Choices(0, count, k)[j]
  {
    EachIsChoice(0, count, k);
    forall c | Choice(c, 0, count, k) ensures c in Choices(0, count, k) { EveryChoiceListed(c, 0, count, k); }
    forall i, j | 0 <= i < j < |Choices(0, count, k)|
      ensures Before(Choices(0, count, k)[i], Choices(0, count, k)[j])
              && Choices(0, count, k)[i] != Choices(0, count, k)[j]
    {
      ChoicesOrdered(0, count, k, i, j);
      BeforeDiffers(Choices(0, count, k)[i], Choices(0, count, k)[j]);
    }
  }

  // --- how often one number is chosen --------------------------------------------------------------

  function Holding(cs: seq<seq<int>>, g: int): nat {
    if cs == [] then 0 else (if g in cs[0] then 1 else 0) + Holding(cs[1..], g)
  }

  lemma {:induction false} HoldingAppend(a: seq<seq<int>>, b: seq<seq<int>>, g: int)
    ensures Holding(a + b, g) == Holding(a, g) + Holding(b, g)
  {
    if a == [] {
      assert a + b == b;
    } else {
      assert (a + b)[1..] == a[1..] + b;
      HoldingAppend(a[1..], b, g);
    }
  }

  lemma {:induction false} HoldingPrepend(x: int, cs: seq<seq<int>>, g: int)
    ensures Holding(Prepend(x, cs), g) == if g == x then |cs| else Holding(cs, g)
  {
    if cs == [] {
    } else {
      assert Prepend(x, cs)[1..] == Prepend(x, cs[1..]);
      HoldingPrepend(x, cs[1..], g);
    }
  }

  lemma {:induction false} HoldingNone(cs: seq<seq<int>>, g: int)
    requires forall c :: c in cs ==> g !in c
    ensures Holding(cs, g) == 0
  {
    if cs == [] {
    } else {
      HoldingNone(cs[1..], g);
    }
  }

  lemma HoldingSplit(lo: nat, n: nat, k: nat, g: int)
    requires lo < n && k >= 1
    ensures var with, without := Choices(lo + 1, n, k - 1), Choices(lo + 1, n, k);
            Holding(Choices(lo, n, k), g) == (if g == lo then |with| else Holding(with, g)) + Holding(without, g)
  {
    var with, without := Choices(lo + 1, n, k - 1), Choices(lo + 1, n, k);
    HoldingAppend(Prepend(lo, with), without, g);
    HoldingPrepend(lo, with, g);
  }

  lemma NotAmongLater(lo: nat, n: nat, k: nat, g: int)
    requires g < lo
    ensures Holding(Choices(lo, n, k), g) == 0
  {
    EachIsChoice(lo, n, k);
    HoldingNone(Choices(lo, n, k), g);
  }

  /** Each number is in as many choices as there are ways to choose its companions. */
  lemma {:induction false} EachHeldEqually(lo: nat, n: nat, k: nat, g: nat)
    requires lo <= g < n && k >= 1
    ensures Holding(Choices(lo, n, k), g) == Binom(n - lo - 1, k - 1)
    decreases n - lo
  {
    HoldingSplit(lo, n, k, g);
    if g == lo {
      ChoicesCounted(lo + 1, n, k - 1);
      NotAmongLater(lo + 1, n, k, g);
    } else {
      EachHeldEqually(lo + 1, n, k, g);
      if k > 1 {
        EachHeldEqually(lo + 1, n, k - 1, g);
      } else {
        assert Holding([[]], g) == 0;
      }
    }
  }

  /** C(n,k)*k/n is a whole number, and the number of choices each member is in. */
  lemma PathsExact(n: nat, k: nat)
    requires n >= 1 && k >= 1
    ensures Binom(n, k) * k % n == 0 && Binom(n, k) * k / n == Binom(n - 1, k - 1)
  {
    var a := Binom(n - 1, k - 1);
    assert Binom(n, k) * k == n * a by { Absorption(n, k); }
    Exact(a, n);
  }

  lemma Exact(a: nat, n: nat)
    requires n > 0
    ensures n * a % n == 0 && n * a / n == a
  {
    Unique(n, n * a / n, n * a % n, a);
  }

  lemma Unique(n: nat, q: nat, r: nat, a: nat)
    requires r < n && n * q + r == n * a
    ensures q == a && r == 0
  {
    if q < a {
      Gap(n, q, a);
    } else if q > a {
      Gap(n, a, q);
    }
  }

  lemma Gap(n: nat, a: nat, b: nat)
    requires a < b
    ensures n * b >= n * a + n
  {
    if b > a + 1 { Gap(n, a, b - 1); }
    assert n * b == n * (b - 1) + n by { Plus(n, b); }
  }

  lemma Plus(a: nat, g: nat)
    requires g > 0
    ensures a * g == a * (g - 1) + a
  {
  }
}
