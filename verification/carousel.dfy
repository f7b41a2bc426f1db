/**
 * The Instagram carousel cursor: wrap-around previous/next over the number of
 * items actually received, and jumps from the dot buttons. The arithmetic uses
 * JavaScript's `%`, whose remainder takes the sign of the dividend.
 */
module Carousel {
  import opened Wrappers
  import opened Session

  /** JavaScript's `a % n` for a positive `n`. */
  function JsRem(a: int, n: int): (r: int)
    requires n > 0
    ensures a >= 0 ==> 0 <= r < n
    ensures 0 <= a < n ==> r == a
  {
    if a < 0 then -((-a) % n)
    else if a < n then ModBelow(a, n); a % n
    else a % n
  }

  lemma ModBelow(a: int, n: int)
    requires 0 <= a < n
    ensures a % n == a
  {
    var q := a / n;
    assert a == q * n + a % n;
    assert q == 0;
  }

  /** `goNext`: a no-op on an empty list, otherwise one step forward with wrap-around. */
  function Next(i: int, n: nat): (j: int)
    ensures n == 0 ==> j == i
    ensures n > 0 && i >= 0 ==> 0 <= j < n
  {
    if n == 0 then i else JsRem(i + 1, n)
  }

  /** `goPrev`: a no-op on an empty list, otherwise one step back with wrap-around. */
  function Prev(i: int, n: nat): (j: int)
    ensures n == 0 ==> j == i
    ensures n > 0 && i >= 0 ==> 0 <= j < n
  {
    if n == 0 then i else JsRem(i - 1 + n, n)
  }

  lemma NextStep(i: int, n: nat)
    requires 0 <= i < n
    ensures Next(i, n) == if i + 1 == n then 0 else i + 1
  {
    if i + 1 == n {
      assert JsRem(n, n) == n % n;
    }
  }

  /** One full turn less: the remainder of a value in `[n, 2n)`. */
  lemma ModOneTurn(a: int, n: int)
    requires 0 < n <= a < 2 * n
    ensures a % n == a - n
  {
    var q := a / n;
    assert a == q * n + a % n;
    assert q == 1;
  }

  lemma PrevStep(i: int, n: nat)
    requires 0 <= i < n
    ensures Prev(i, n) == if i == 0 then n - 1 else i - 1
  {
    if i > 0 {
      ModOneTurn(i - 1 + n, n);
    }
  }

  /** From the first item `prev` shows the last; from the last `next` shows the first. */
  lemma WrapAround(n: nat)
    requires n > 0
    ensures Prev(0, n) == n - 1
    ensures Next(n - 1, n) == 0
  {
    PrevStep(0, n);
    NextStep(n - 1, n);
  }

  /** `prev` undoes `next` and `next` undoes `prev`. */
  lemma PrevNextInverse(i: int, n: nat)
    requires 0 <= i < n
    ensures Prev(Next(i, n), n) == i
    ensures Next(Prev(i, n), n) == i
  {
    NextStep(i, n);
    PrevStep(Next(i, n), n);
    PrevStep(i, n);
    NextStep(Prev(i, n), n);
  }

  /** `next` pressed `k` times. */
  function NextTimes(i: int, k: nat, n: nat): int {
    if k == 0 then i else Next(NextTimes(i, k - 1, n), n)
  }

  lemma {:induction false} NextTimesOffset(i: int, k: nat, n: nat)
    requires 0 <= i < n && k <= n
    ensures NextTimes(i, k, n) == if i + k < n then i + k else i + k - n
  {
    if k > 0 {
      NextTimesOffset(i, k - 1, n);
      NextStep(NextTimes(i, k - 1, n), n);
    }
  }

  /** Pressing `next` once per item comes back to the starting item. */
  lemma NextFullCycle(i: int, n: nat)
    requires 0 <= i < n
    ensures NextTimes(i, n, n) == i
  {
    NextTimesOffset(i, n, n);
  }

  // ------------------------------------------------------------ on the session state

  /** The `goPrev` handler: the bound is the number of items received, not `count`. */
  function GoPrev(s: State): (r: State)
    ensures r.igIndex == Prev(s.igIndex, |Medias(s)|)
    ensures r == s.(igIndex := r.igIndex)
    ensures |Medias(s)| == 0 ==> r == s
    ensures |Medias(s)| > 0 && s.igIndex >= 0 ==> 0 <= r.igIndex < |Medias(s)|
  {
    s.(igIndex := Prev(s.igIndex, |Medias(s)|))
  }

  /** The `goNext` handler: the bound is the number of items received, not `count`. */
  function GoNext(s: State): (r: State)
    ensures r.igIndex == Next(s.igIndex, |Medias(s)|)
    ensures r == s.(igIndex := r.igIndex)
    ensures |Medias(s)| == 0 ==> r == s
    ensures |Medias(s)| > 0 && s.igIndex >= 0 ==> 0 <= r.igIndex < |Medias(s)|
  {
    s.(igIndex := Next(s.igIndex, |Medias(s)|))
  }

  /**
   * A dot button: one is rendered per received item, so only an index into
   * the items can be chosen; any other index has no button and changes nothing.
   */
  function JumpTo(s: State, i: int): (r: State)
    ensures 0 <= i < |Medias(s)| ==> r == s.(igIndex := i)
    ensures !(0 <= i < |Medias(s)|) ==> r == s
  {
    if 0 <= i < |Medias(s)| then s.(igIndex := i) else s
  }

  /** Navigation ignores the announced `count`: only the received items bound it. */
  lemma NavigationIgnoresCount(s: State, c: int)
    requires s.igData.Some?
    ensures GoNext(s.(igData := Some(s.igData.value.(count := c)))).igIndex == GoNext(s).igIndex
    ensures GoPrev(s.(igData := Some(s.igData.value.(count := c)))).igIndex == GoPrev(s).igIndex
  {
  }

  /** The three-item example: from the first item `prev` goes to the last, and back. */
  lemma ThreeItems()
    ensures Prev(0, 3) == 2 && Next(2, 3) == 0
  {
    WrapAround(3);
  }
}
