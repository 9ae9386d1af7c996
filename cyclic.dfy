/** Stepping an index forward or backward around a list of n entries, as the
    playlist and the image viewer do: (i + 1) % n and (i - 1 + n) % n. Both
    operands are non-negative, so JavaScript's % and Dafny's agree. */
module Cyclic {

  function Next(i: nat, n: nat): (r: nat)
    requires n > 0
    ensures r < n
    ensures i + 1 < n ==> r == i + 1
    ensures i + 1 == n ==> r == 0
  {
    (i + 1) % n
  }

  function Prev(i: nat, n: nat): (r: nat)
    requires n > 0
    ensures r < n
    ensures 0 < i <= n ==> r == i - 1
    ensures i == 0 ==> r == n - 1
  {
    (i - 1 + n) % n
  }

  /** Each step undoes the other. */
  lemma NextPrevInverse(i: nat, n: nat)
    requires i < n
    ensures Prev(Next(i, n), n) == i
    ensures Next(Prev(i, n), n) == i
  {
  }

  /** k forward steps. */
  function NextTimes(i: nat, k: nat, n: nat): (r: nat)
    requires n > 0
    decreases k
  {
    if k == 0 then i else Next(NextTimes(i, k - 1, n), n)
  }

  /** Forward steps that do not reach the end just count up. */
  lemma {:induction false} NextTimesBelow(i: nat, k: nat, n: nat)
    requires n > 0 && i + k < n
    ensures NextTimes(i, k, n) == i + k
    decreases k
  {
    if k > 0 {
      NextTimesBelow(i, k - 1, n);
    }
  }

  /** a steps then b steps are a + b steps. */
  lemma {:induction false} NextTimesAdd(i: nat, a: nat, b: nat, n: nat)
    requires n > 0
    ensures NextTimes(i, a + b, n) == NextTimes(NextTimes(i, a, n), b, n)
    decreases b
  {
    if b > 0 {
      NextTimesAdd(i, a, b - 1, n);
    }
  }

  /** n forward steps come back to the start: n - i steps wrap to 0, and i
      more reach i again. */
  lemma FullCircle(i: nat, n: nat)
    requires i < n
    ensures NextTimes(i, n, n) == i
  {
    NextTimesBelow(i, n - i - 1, n);
    assert NextTimes(i, n - i, n) == 0;
    NextTimesAdd(i, n - i, i, n);
    NextTimesBelow(0, i, n);
  }
}
