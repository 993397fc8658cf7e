/**
 * The cart store shared by every front end: an ordered sequence of line
 * items, changed only by appending (`Array.prototype.push`) and by removing
 * one position (`Array.prototype.splice(i, 1)`), plus the total and count
 * that the cart view last displayed.
 */
module CartStore {
  import opened Wrappers

  /**
   * One cart line. Quantity is implicitly one. The three optional fields
   * exist only in the front ends that record them (product id, the
   * fulfilment provider's product and variant references).
   */
  datatype Line = Line(
    productId: Option<int>,
    printfulId: Option<string>,
    variantId: Option<string>,
    name: string,
    size: string,
    price: real,
    image: string)

  /** Sum of the unit prices, accumulated from the first line to the last. */
  function Total(lines: seq<Line>): real
  {
    if lines == [] then 0.0 else Total(lines[..|lines| - 1]) + lines[|lines| - 1].price
  }

  lemma {:induction false} TotalAppend(a: seq<Line>, b: seq<Line>)
    ensures Total(a + b) == Total(a) + Total(b)
  {
    if b == [] {
      assert a + b == a;
    } else {
      assert (a + b)[..|a + b| - 1] == a + b[..|b| - 1];
      TotalAppend(a, b[..|b| - 1]);
    }
  }

  /**
   * The position at which `splice(start, 1)` acts on an array of length `n`:
   * a negative start counts back from the end (clamped at 0), a start past
   * the end is clamped to the length.
   */
  function SpliceStart(start: int, n: nat): (k: nat)
    ensures k <= n
    ensures 0 <= start <= n ==> k == start
    ensures start > n ==> k == n
    ensures start < 0 && 0 <= n + start ==> k == n + start
    ensures n + start < 0 ==> k == 0
  {
    if start < 0 then (if n + start < 0 then 0 else n + start)
    else if start > n then n
    else start
  }

  /** The array after `splice(start, 1)`. */
  function SpliceOne<T>(s: seq<T>, start: int): (r: seq<T>)
    ensures 0 <= start < |s| ==>
      && |r| == |s| - 1
      && (forall j :: 0 <= j < start ==> r[j] == s[j])
      && (forall j :: start <= j < |r| ==> r[j] == s[j + 1])
      && multiset(r) + multiset{s[start]} == multiset(s)
    ensures start >= |s| || s == [] ==> r == s
    ensures -|s| <= start < 0 ==> r == s[..|s| + start] + s[|s| + start + 1..]
    ensures start < -|s| && s != [] ==> r == s[1..]
    ensures s != [] && start < |s| ==> |r| == |s| - 1
  {
    var k := SpliceStart(start, |s|);
    if k < |s| then
      assert s == s[..k] + [s[k]] + s[k + 1..];
      s[..k] + s[k + 1..]
    else
      s
  }

  /** Removing line `i` lowers the total by exactly that line's price. */
  lemma {:induction false} TotalAfterRemove(lines: seq<Line>, i: int)
    requires 0 <= i < |lines|
    ensures Total(SpliceOne(lines, i)) == Total(lines) - lines[i].price
  {
    assert lines == lines[..i] + [lines[i]] + lines[i + 1..];
    assert SpliceOne(lines, i) == lines[..i] + lines[i + 1..];
    TotalAppend(lines[..i] + [lines[i]], lines[i + 1..]);
    TotalAppend(lines[..i], [lines[i]]);
    TotalAppend(lines[..i], lines[i + 1..]);
    assert Total([lines[i]]) == lines[i].price by {
      assert [lines[i]][..0] == [];
    }
  }

  /** Appending a line raises the total by exactly its price. */
  lemma TotalAfterPush(lines: seq<Line>, line: Line)
    ensures Total(lines + [line]) == Total(lines) + line.price
  {
  }

  /**
   * A cart and its view. `total` and `count` are the values the cart view
   * last displayed (in script.js, `total` is the page-wide `cartTotal`);
   * they agree with `lines` exactly when the view has been refreshed since
   * the last change.
   */
  class Cart {
    var lines: seq<Line>
    var total: real
    var count: nat

    /** The view shows the sum of the prices and the number of lines. */
    ghost predicate Synced()
      reads this
    {
      total == Total(lines) && count == |lines|
    }

    constructor ()
      ensures lines == [] && total == 0.0 && count == 0
      ensures Synced()
    {
      lines := [];
      total := 0.0;
      count := 0;
    }

    /** `cart.push(line)`: one line at the end, the view not yet refreshed. */
    method Push(line: Line)
      modifies this
      ensures lines == old(lines) + [line]
      ensures total == old(total) && count == old(count)
    {
      lines := lines + [line];
    }

    /** `cart.splice(start, 1)`, the view not yet refreshed. */
    method Splice(start: int)
      modifies this
      ensures lines == SpliceOne(old(lines), start)
      ensures total == old(total) && count == old(count)
    {
      lines := SpliceOne(lines, start);
    }

    /**
     * `updateCartDisplay`: the total is reset to zero and the price of each
     * line added in order; the count badge is set to the number of lines.
     */
    method UpdateCartDisplay()
      modifies this
      ensures lines == old(lines)
      ensures Synced()
    {
      var sum := 0.0;
      var i := 0;
      while i < |lines|
        invariant 0 <= i <= |lines|
        invariant sum == Total(lines[..i])
      {
        assert lines[..i + 1][..i] == lines[..i];
        sum := sum + lines[i].price;
        i := i + 1;
      }
      assert lines[..|lines|] == lines;
      total := sum;
      count := |lines|;
    }
  }
}
