/** The stock snapshot and the five category pools of one item.

    A stock row carries an item code, a category prefix (the `Prefixo`
    column) and a balance. An item's pools are the sums of the balances of
    the rows whose code equals the item code exactly, one sum per prefix
    PL, PV, RP, MP and AA; rows with any other prefix are ignored.
 */
module Stock {

  /** The five stock categories the rules know. */
  datatype Category = PL | PV | RP | MP | AA

  /** The text a category has in the prefix column. */
  function Code(c: Category): (code: string)
  {
    match c
    case PL => "PL"
    case PV => "PV"
    case RP => "RP"
    case MP => "MP"
    case AA => "AA"
  }

  /** Distinct categories are written differently in the prefix column. */
  lemma CodeInjective(c: Category, d: Category)
    requires Code(c) == Code(d)
    ensures c == d
  {
  }

  /** One row of the stock snapshot. */
  datatype StockRow = StockRow(item: string, prefix: string, qty: int)

  /** The summed balances of one item, per category. */
  datatype Pools = Pools(pl: int, pv: int, rp: int, mp: int, aa: int)
  {
    function Get(c: Category): (qty: int)
    {
      match c
      case PL => pl
      case PV => pv
      case RP => rp
      case MP => mp
      case AA => aa
    }
  }

  /** Row r counts towards pool c of item: same code, prefix of c. */
  predicate Feeds(r: StockRow, item: string, c: Category)
  {
    r.item == item && r.prefix == Code(c)
  }

  /** The sum of the balances of the rows that feed pool c of item. */
  function PoolSum(stock: seq<StockRow>, item: string, c: Category): (total: int)
  {
    if stock == [] then 0
    else
      var last := stock[|stock| - 1];
      PoolSum(stock[..|stock| - 1], item, c) + (if Feeds(last, item, c) then last.qty else 0)
  }

  /** The five pools of one item. */
  function PoolsFor(stock: seq<StockRow>, item: string): (pools: Pools)
  {
    Pools(PoolSum(stock, item, PL), PoolSum(stock, item, PV), PoolSum(stock, item, RP),
          PoolSum(stock, item, MP), PoolSum(stock, item, AA))
  }

  /** Pool sums add up over a split snapshot. */
  lemma {:induction false} PoolSumAppend(a: seq<StockRow>, b: seq<StockRow>, item: string, c: Category)
    ensures PoolSum(a + b, item, c) == PoolSum(a, item, c) + PoolSum(b, item, c)
    decreases |b|
  {
    if b == [] {
      assert a + b == a;
    } else {
      var n := |b| - 1;
      assert (a + b)[..|a + b| - 1] == a + b[..n];
      PoolSumAppend(a, b[..n], item, c);
    }
  }

  /** Rows none of which feeds pool c of item contribute nothing to it. */
  lemma {:induction false} PoolSumUnfed(rows: seq<StockRow>, item: string, c: Category)
    requires forall i :: 0 <= i < |rows| ==> !Feeds(rows[i], item, c)
    ensures PoolSum(rows, item, c) == 0
  {
    if rows != [] {
      PoolSumUnfed(rows[..|rows| - 1], item, c);
    }
  }

  /** A pool sum depends only on the multiset of rows, not on their order. */
  lemma {:induction false} PoolSumPermutation(a: seq<StockRow>, b: seq<StockRow>, item: string, c: Category)
    requires multiset(a) == multiset(b)
    ensures PoolSum(a, item, c) == PoolSum(b, item, c)
    decreases |a|
  {
    if a == [] {
      assert |b| == |multiset(b)| == 0;
    } else {
      var n := |a| - 1;
      var last := a[n];
      assert a == a[..n] + [last];
      assert last in multiset(b);
      var j :| 0 <= j < |b| && b[j] == last;
      var rest := b[..j] + b[j + 1..];
      assert b == b[..j] + [last] + b[j + 1..];
      assert multiset(a) == multiset(a[..n]) + multiset{last};
      assert multiset(b) == multiset(b[..j]) + multiset{last} + multiset(b[j + 1..]);
      assert multiset(rest) == multiset(b[..j]) + multiset(b[j + 1..]);
      assert multiset(a[..n]) == multiset(a) - multiset{last};
      assert multiset(rest) == multiset(b) - multiset{last};
      PoolSumPermutation(a[..n], rest, item, c);
      PoolSumAppend(b[..j] + [last], b[j + 1..], item, c);
      PoolSumAppend(b[..j], [last], item, c);
      PoolSumAppend(b[..j], b[j + 1..], item, c);
      PoolSumAppend(a[..n], [last], item, c);
      assert [last][..0] == [];
    }
  }

  /** The pools do not depend on the order of the snapshot's rows: any
      rearrangement of the same rows gives the same five pools. */
  lemma PoolsOrderFree(a: seq<StockRow>, b: seq<StockRow>, item: string)
    requires multiset(a) == multiset(b)
    ensures PoolsFor(a, item) == PoolsFor(b, item)
  {
    forall c: Category
      ensures PoolSum(a, item, c) == PoolSum(b, item, c)
    {
      PoolSumPermutation(a, b, item, c);
    }
  }

  /** Rows for another item code, or with a prefix outside the five
      categories, leave every pool of item as it was. */
  lemma PoolsIgnoreOthers(stock: seq<StockRow>, others: seq<StockRow>, item: string)
    requires forall i :: 0 <= i < |others| ==>
      others[i].item != item || forall c: Category :: others[i].prefix != Code(c)
    ensures PoolsFor(stock + others, item) == PoolsFor(stock, item)
  {
    forall c: Category
      ensures PoolSum(stock + others, item, c) == PoolSum(stock, item, c)
    {
      PoolSumAppend(stock, others, item, c);
      PoolSumUnfed(others, item, c);
    }
  }

  /** A row with the item's exact code and a known prefix adds its balance
      to that prefix's pool and to no other. */
  lemma PoolsCountMatch(stock: seq<StockRow>, r: StockRow, c: Category)
    requires r.prefix == Code(c)
    ensures forall d: Category ::
      (PoolsFor(stock + [r], r.item).Get(d) == PoolsFor(stock, r.item).Get(d) + (if d == c then r.qty else 0))
  {
    forall d: Category
      ensures PoolSum(stock + [r], r.item, d) == PoolSum(stock, r.item, d) + (if d == c then r.qty else 0)
    {
      assert (stock + [r])[..|stock|] == stock;
      if Code(d) == Code(c) {
        CodeInjective(d, c);
      }
    }
  }
}
