/** The STREAM kernels and their validator over exact reals: parallel loops run their
    iterations in any order (code/eval/stream/stream.c). */
module StreamCheck {

  const SCALAR: real := 3.0

  // ----- the scalar replay

  datatype Triple = Triple(a: real, b: real, c: real)

  /** One pass of Copy, Scale, Add and Triad on single numbers. */
  function Pass(t: Triple): Triple {
    var c1 := t.a;
    var b := SCALAR * c1;
    var c := t.a + b;
    Triple(b + SCALAR * c, b, c)
  }

  /** The validator's aj, bj, cj after so many repetitions. */
  function Expected(times: nat): Triple {
    if times == 0 then Triple(2.0, 2.0, 0.0) else Pass(Expected(times - 1))
  }

  function Power15(k: nat): real {
    if k == 0 then 1.0 else 15.0 * Power15(k - 1)
  }

  /** In closed form: a grows by 15 each time, b and c are 3 and 4 times the previous a. In
      particular nothing the validator divides by is zero once a kernel has run. */
  lemma {:induction false} ExpectedClosedForm(times: nat)
    ensures Expected(times).a == 2.0 * Power15(times) && Power15(times) >= 1.0
    ensures times > 0 ==>
      Expected(times).b == 6.0 * Power15(times - 1) && Expected(times).c == 8.0 * Power15(times - 1)
  {
    if times > 0 { ExpectedClosedForm(times - 1); }
  }

  // ----- the kernels

  predicate Uniform(s: seq<real>, v: real) {
    forall j | 0 <= j < |s| :: s[j] == v
  }

  /** The iterations of a parallel loop. */
  function Indices(n: nat): (r: set<nat>)
    ensures forall j: nat :: j in r <==> j < n
  {
    if n == 0 then {} else Indices(n - 1) + {n - 1}
  }

  class Stream {
    const n: nat
    const a: array<real>
    const b: array<real>
    const c: array<real>

    constructor (n: nat)
      ensures fresh(a) && fresh(b) && fresh(c) && this.n == n && Valid()
    {
      this.n := n;
      a, b, c := new real[n], new real[n], new real[n];
    }

    ghost predicate Valid() {
      a.Length == b.Length == c.Length == n && a != b && b != c && a != c
    }

    /** Every element of the three arrays equals the triple. */
    ghost predicate Holds(t: Triple)
      reads a, b, c
    {
      Uniform(a[..], t.a) && Uniform(b[..], t.b) && Uniform(c[..], t.c)
    }

    method Fill()
      requires Valid()
      modifies a, b, c
      ensures Holds(Triple(1.0, 2.0, 0.0))
    {
      var todo := Indices(n);
      while todo != {}
        invariant todo <= Indices(n)
        invariant forall j | 0 <= j < n && j !in todo :: a[j] == 1.0 && b[j] == 2.0 && c[j] == 0.0
        decreases |todo|
      {
        var j :| j in todo;
        a[j], b[j], c[j] := 1.0, 2.0, 0.0;
        todo := todo - {j};
      }
    }

    /** The timing check doubles a. */
    method Double()
      requires Valid()
      modifies a
      ensures forall j | 0 <= j < n :: a[j] == 2.0 * old(a[j])
    {
      var todo := Indices(n);
      while todo != {}
        invariant todo <= Indices(n)
        invariant forall j | 0 <= j < n :: a[j] == if j in todo then old(a[j]) else 2.0 * old(a[j])
        decreases |todo|
      {
        var j :| j in todo;
        a[j] := 2.0 * a[j];
        todo := todo - {j};
      }
    }

    method Copy()
      requires Valid()
      modifies c
      ensures forall j | 0 <= j < n :: c[j] == a[j]
    {
      var todo := Indices(n);
      while todo != {}
        invariant todo <= Indices(n)
        invariant forall j | 0 <= j < n && j !in todo :: c[j] == a[j]
        decreases |todo|
      {
        var j :| j in todo;
        c[j] := a[j];
        todo := todo - {j};
      }
    }

    method Scale()
      requires Valid()
      modifies b
      ensures forall j | 0 <= j < n :: b[j] == SCALAR * c[j]
    {
      var todo := Indices(n);
      while todo != {}
        invariant todo <= Indices(n)
        invariant forall j | 0 <= j < n && j !in todo :: b[j] == SCALAR * c[j]
        decreases |todo|
      {
        var j :| j in todo;
        b[j] := SCALAR * c[j];
        todo := todo - {j};
      }
    }

    method Add()
      requires Valid()
      modifies c
      ensures forall j | 0 <= j < n :: c[j] == a[j] + b[j]
    {
      var todo := Indices(n);
      while todo != {}
        invariant todo <= Indices(n)
        invariant forall j | 0 <= j < n && j !in todo :: c[j] == a[j] + b[j]
        decreases |todo|
      {
        var j :| j in todo;
        c[j] := a[j] + b[j];
        todo := todo - {j};
      }
    }

    method Triad()
      requires Valid()
      modifies a
      ensures forall j | 0 <= j < n :: a[j] == b[j] + SCALAR * c[j]
    {
      var todo := Indices(n);
      while todo != {}
        invariant todo <= Indices(n)
        invariant forall j | 0 <= j < n && j !in todo :: a[j] == b[j] + SCALAR * c[j]
        decreases |todo|
      {
        var j :| j in todo;
        a[j] := b[j] + SCALAR * c[j];
        todo := todo - {j};
      }
    }

    /** One repetition of the four kernels maps a uniform state to its scalar replay. */
    method Repetition(ghost t: Triple)
      requires Valid() && Holds(t)
      modifies a, b, c
      ensures Holds(Pass(t))
    {
      Copy();
      Scale();
      Add();
      Triad();
    }

    /** The benchmark: for every size and number of repetitions, whatever order the iterations
        run in, every element ends up equal to the validator's scalars. */
    method Benchmark(times: nat)
      requires Valid()
      modifies a, b, c
      ensures Holds(Expected(times))
    {
      Fill();
      Double();
      var k := 0;
      while k < times
        invariant 0 <= k <= times && Holds(Expected(k))
      {
        Repetition(Expected(k));
        k := k + 1;
      }
    }
  }

  // ----- the validator

  function Abs(x: real): real { if x >= 0.0 then x else -x }

  function SumErr(s: seq<real>, v: real): real {
    if s == [] then 0.0 else SumErr(s[..|s| - 1], v) + Abs(s[|s| - 1] - v)
  }

  /** How many elements are off by more than epsilon, relatively. */
  function Bad(s: seq<real>, v: real, epsilon: real): nat
    requires v != 0.0
  {
    if s == [] then 0
    else Bad(s[..|s| - 1], v, epsilon) + if Abs(s[|s| - 1] / v - 1.0) > epsilon then 1 else 0
  }

  lemma RelativeError(x: real, v: real, epsilon: real)
    requires v > 0.0
    ensures Abs(x / v - 1.0) <= epsilon <==> Abs(x - v) <= epsilon * v
  {
    var d := x / v - 1.0;
    assert x / v * v == x;
    assert d * v == x - v;
    Scaled(0.0, d, v);
    Scaled(d, epsilon, v);
    Scaled(-d, epsilon, v);
    assert -d * v == v - x;
  }

  lemma Scaled(p: real, q: real, v: real)
    requires v > 0.0
    ensures p <= q <==> p * v <= q * v
  {
    if p <= q {
      assert (q - p) * v >= 0.0;
    } else {
      assert (p - q) * v > 0.0;
    }
  }

  /** No element counted as bad: each is within epsilon of the expected value. */
  lemma {:induction false} NoBadAllClose(s: seq<real>, v: real, epsilon: real, j: nat)
    requires v > 0.0 && Bad(s, v, epsilon) == 0 && j < |s|
    ensures Abs(s[j] - v) <= epsilon * v
  {
    var n := |s| - 1;
    if j == n {
      RelativeError(s[n], v, epsilon);
    } else {
      NoBadAllClose(s[..n], v, epsilon, j);
    }
  }

  function Repeated(k: nat, e: real): real {
    if k == 0 then 0.0 else Repeated(k - 1, e) + e
  }

  lemma {:induction false} RepeatedIsProduct(k: nat, e: real)
    ensures Repeated(k, e) == k as real * e
  {
    if k == 0 {
      assert 0 as real * e == 0.0;
    } else {
      RepeatedIsProduct(k - 1, e);
      OneMore(k - 1, e);
    }
  }

  lemma OneMore(n: nat, e: real)
    ensures (n + 1) as real * e == n as real * e + e
  {
    assert (n + 1) as real == n as real + 1.0;
    assert (n as real + 1.0) * e == n as real * e + e;
  }

  lemma {:induction false} CloseSmallSum(s: seq<real>, v: real, e: real)
    requires forall j | 0 <= j < |s| :: Abs(s[j] - v) <= e
    ensures SumErr(s, v) <= Repeated(|s|, e)
  {
    if s != [] {
      CloseSmallSum(s[..|s| - 1], v, e);
    }
  }

  lemma {:induction false} UniformHasNoError(s: seq<real>, v: real)
    requires Uniform(s, v)
    ensures SumErr(s, v) == 0.0
  {
    if s != [] { UniformHasNoError(s[..|s| - 1], v); }
  }

  lemma {:induction false} SumErrNonNegative(s: seq<real>, v: real)
    ensures SumErr(s, v) >= 0.0
  {
    if s != [] { SumErrNonNegative(s[..|s| - 1], v); }
  }

  /** The validator's verdict on an array: average error over expected value above epsilon. */
  predicate Fails(s: seq<real>, v: real, epsilon: real)
    requires |s| > 0 && v != 0.0
  {
    Abs(SumErr(s, v) / |s| as real / v) > epsilon
  }

  lemma AverageBound(sum: real, n: real, v: real, epsilon: real)
    requires n > 0.0 && v > 0.0 && sum >= 0.0
    ensures sum <= n * (epsilon * v) <==> Abs(sum / n / v) <= epsilon
  {
    var avg := sum / n;
    assert avg * n == sum;
    Scaled(0.0, avg, n);
    var rel := avg / v;
    assert rel * v == avg;
    Scaled(0.0, rel, v);
    Scaled(avg, epsilon * v, n);
    Scaled(rel, epsilon, v);
  }

  /** The verdict without its divisions: the errors add up to more than epsilon times the
      expected value for each element. */
  lemma FailsIff(s: seq<real>, v: real, epsilon: real)
    requires |s| > 0 && v > 0.0
    ensures Fails(s, v, epsilon) <==> SumErr(s, v) > |s| as real * (epsilon * v)
  {
    SumErrNonNegative(s, v);
    AverageBound(SumErr(s, v), |s| as real, v, epsilon);
  }

  // ----- what the sum and the count are made of

  /** Every element contributes its own distance, wherever it stands. */
  lemma {:induction false} SumErrAdditive(s: seq<real>, t: seq<real>, v: real)
    ensures SumErr(s + t, v) == SumErr(s, v) + SumErr(t, v)
    ensures |t| == 1 ==> SumErr(t, v) == if t[0] >= v then t[0] - v else v - t[0]
  {
    if t == [] {
      assert s + t == s;
    } else {
      var n := |t| - 1;
      SumErrAdditive(s, t[..n], v);
      assert (s + t)[..|s| + n] == s + t[..n];
    }
  }

  lemma {:induction false} BadAdditive(s: seq<real>, t: seq<real>, v: real, epsilon: real)
    requires v > 0.0
    ensures Bad(s + t, v, epsilon) == Bad(s, v, epsilon) + Bad(t, v, epsilon)
    ensures |t| == 1 ==> Bad(t, v, epsilon) == if Abs(t[0] - v) > epsilon * v then 1 else 0
  {
    if t == [] {
      assert s + t == s;
    } else {
      var n := |t| - 1;
      BadAdditive(s, t[..n], v, epsilon);
      assert (s + t)[..|s| + n] == s + t[..n];
      RelativeError(t[n], v, epsilon);
    }
  }

  /** Taking out one element takes out its share. */
  lemma SumErrWithout(s: seq<real>, k: nat, v: real)
    requires k < |s|
    ensures SumErr(s, v) == SumErr(s[..k] + s[k + 1..], v) + Abs(s[k] - v)
  {
    assert s == (s[..k] + [s[k]]) + s[k + 1..];
    SumErrAdditive(s[..k] + [s[k]], s[k + 1..], v);
    SumErrAdditive(s[..k], [s[k]], v);
    SumErrAdditive(s[..k], s[k + 1..], v);
  }

  /** The sum, and with it the verdict, does not depend on the order of the elements. */
  lemma {:induction false} SumErrIgnoresOrder(s: seq<real>, t: seq<real>, v: real)
    requires multiset(s) == multiset(t)
    ensures |s| == |t| && SumErr(s, v) == SumErr(t, v)
  {
    assert |s| == |multiset(s)| && |t| == |multiset(t)|;
    if s != [] {
      var n := |s| - 1;
      assert s[n] in multiset(t);
      var k :| 0 <= k < |t| && t[k] == s[n];
      ElementsWithout(s, n);
      ElementsWithout(t, k);
      assert s[..n] + s[n + 1..] == s[..n];
      SumErrIgnoresOrder(s[..n], t[..k] + t[k + 1..], v);
      SumErrWithout(t, k, v);
    }
  }

  lemma ElementsWithout(s: seq<real>, k: nat)
    requires k < |s|
    ensures multiset(s[..k] + s[k + 1..]) == multiset(s) - multiset{s[k]}
  {
    assert s == s[..k] + [s[k]] + s[k + 1..];
  }

  /** A passing array has no element further off than the whole tolerance. */
  lemma PassMeansClose(s: seq<real>, v: real, epsilon: real, j: nat)
    requires |s| > 0 && v > 0.0 && !Fails(s, v, epsilon) && j < |s|
    ensures Abs(s[j] - v) <= |s| as real * (epsilon * v)
  {
    FailsIff(s, v, epsilon);
    SumErrWithout(s, j, v);
    SumErrNonNegative(s[..j] + s[j + 1..], v);
  }

  lemma {:induction false} FarLargeSum(s: seq<real>, v: real, e: real)
    requires |s| > 0 && forall j | 0 <= j < |s| :: Abs(s[j] - v) > e
    ensures SumErr(s, v) > Repeated(|s|, e)
  {
    var n := |s| - 1;
    if n > 0 { FarLargeSum(s[..n], v, e); }
  }

  /** An array all of whose elements are off by more than the tolerance fails. */
  lemma FarMeansFail(s: seq<real>, v: real, epsilon: real)
    requires |s| > 0 && v > 0.0 && forall j | 0 <= j < |s| :: Abs(s[j] - v) > epsilon * v
    ensures Fails(s, v, epsilon)
  {
    FarLargeSum(s, v, epsilon * v);
    RepeatedIsProduct(|s|, epsilon * v);
    FailsIff(s, v, epsilon);
  }

  lemma CloseMeansPass(s: seq<real>, v: real, epsilon: real)
    requires |s| > 0 && v > 0.0 && forall j | 0 <= j < |s| :: Abs(s[j] - v) <= epsilon * v
    ensures !Fails(s, v, epsilon)
  {
    CloseSmallSum(s, v, epsilon * v);
    RepeatedIsProduct(|s|, epsilon * v);
    FailsIff(s, v, epsilon);
  }

  /** For arbitrary contents: if the validator reports an array as failed, it also counts at
      least one bad element in it. */
  lemma FailureHasBadElement(s: seq<real>, v: real, epsilon: real)
    requires |s| > 0 && v > 0.0 && Fails(s, v, epsilon)
    ensures Bad(s, v, epsilon) >= 1
  {
    if Bad(s, v, epsilon) == 0 {
      forall j | 0 <= j < |s| ensures Abs(s[j] - v) <= epsilon * v {
        NoBadAllClose(s, v, epsilon, j);
      }
      CloseMeansPass(s, v, epsilon);
    }
  }

  /** Arrays that hold the expected values pass. */
  lemma UniformPasses(s: seq<real>, v: real, epsilon: real)
    requires |s| > 0 && v > 0.0 && epsilon >= 0.0 && Uniform(s, v)
    ensures !Fails(s, v, epsilon)
  {
    UniformHasNoError(s, v);
    assert 0.0 / |s| as real == 0.0 && 0.0 / v == 0.0;
  }

  /** The loop that accumulates the deltas of one array. */
  method SumErrors(s: array<real>, v: real) returns (sum: real)
    ensures sum == SumErr(s[..], v)
  {
    sum := 0.0;
    var j := 0;
    while j < s.Length
      invariant 0 <= j <= s.Length && sum == SumErr(s[..j], v)
    {
      assert s[..j + 1][..j] == s[..j];
      sum := sum + Abs(s[j] - v);
      j := j + 1;
    }
    assert s[..j] == s[..];
  }

  /** The loop that counts bad elements. */
  method CountBad(s: array<real>, v: real, epsilon: real) returns (ierr: nat)
    requires v > 0.0
    ensures ierr == Bad(s[..], v, epsilon)
  {
    ierr := 0;
    var j := 0;
    while j < s.Length
      invariant 0 <= j <= s.Length && ierr == Bad(s[..j], v, epsilon)
    {
      assert s[..j + 1][..j] == s[..j];
      if Abs(s[j] / v - 1.0) > epsilon { ierr := ierr + 1; }
      j := j + 1;
    }
    assert s[..j] == s[..];
  }

  /** checkSTREAMresults for one array: the sum of the deltas, the verdict, and on failure the
      number of bad elements. */
  method CheckArray(s: array<real>, v: real, epsilon: real) returns (failed: bool, ierr: nat)
    requires s.Length > 0 && v > 0.0
    ensures failed == Fails(s[..], v, epsilon)
    ensures failed ==> ierr == Bad(s[..], v, epsilon) && ierr >= 1
  {
    var sum := SumErrors(s, v);
    var avg := sum / s.Length as real;
    failed, ierr := Abs(avg / v) > epsilon, 0;
    if failed {
      ierr := CountBad(s, v, epsilon);
      FailureHasBadElement(s[..], v, epsilon);
    }
  }

  /** checkSTREAMresults. After the benchmark, with the same repetition count, it
      reports no failure. */
  method CheckResults(st: Stream, times: nat, epsilon: real) returns (err: nat)
    requires st.Valid() && st.n > 0 && times >= 2 && epsilon >= 0.0
    ensures var e := Expected(times);
      && e.a > 0.0 && e.b > 0.0 && e.c > 0.0
      && err == (if Fails(st.a[..], e.a, epsilon) then 1 else 0)
              + (if Fails(st.b[..], e.b, epsilon) then 1 else 0)
              + (if Fails(st.c[..], e.c, epsilon) then 1 else 0)
    ensures st.Holds(Expected(times)) ==> err == 0
  {
    var e := Expected(times);
    ExpectedClosedForm(times);
    ExpectedClosedForm(times - 1);
    var failedA, _ := CheckArray(st.a, e.a, epsilon);
    var failedB, _ := CheckArray(st.b, e.b, epsilon);
    var failedC, _ := CheckArray(st.c, e.c, epsilon);
    err := (if failedA then 1 else 0) + (if failedB then 1 else 0) + (if failedC then 1 else 0);
    if st.Holds(e) {
      UniformPasses(st.a[..], e.a, epsilon);
      UniformPasses(st.b[..], e.b, epsilon);
      UniformPasses(st.c[..], e.c, epsilon);
    }
  }
}
