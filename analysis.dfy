/** The whole analysis (`aplicar_regras_com_alertas`): scale the structure
    by the number of units to produce, group it by item code, and for each
    item in group order, pool its stock and apply the allocation rule. The
    result holds one row per distinct item.
 */
module Analysis {
  import opened Ordering
  import opened Demand
  import opened Stock
  import opened Allocation

  /** One result row: item, required quantity, the five pools as summed,
      the status and the alerts in the order they were taken. */
  datatype Row = Row(item: string, required: int, pools: Pools, status: Status, alerts: seq<Alert>)

  /** The row the rules produce for one item with a given requirement. */
  function Evaluate(item: string, required: int, stock: seq<StockRow>, dest: Destination): (row: Row)
  {
    var pools := PoolsFor(stock, item);
    var v := Decision(required, pools, dest);
    Row(item, required, pools, v.status, v.alerts)
  }

  function ItemCodes(rows: seq<Row>): (codes: seq<string>)
  {
    seq(|rows|, j requires 0 <= j < |rows| => rows[j].item)
  }

  /** The rows are in strictly increasing item order, so there is one per
      item, and cover exactly the items of the structure; each row requires
      `units` times the sum of its item's lines and carries that item's
      pools and verdict. */
  method ApplyRulesWithAlerts(structure: seq<DemandLine>, stock: seq<StockRow>, dest: Destination, units: int)
    returns (rows: seq<Row>)
    ensures StrictlySorted(ItemCodes(rows))
    ensures Distinct(ItemCodes(rows))
    ensures forall k :: k in ItemCodes(rows) <==> Occurs(structure, k)
    ensures forall j :: 0 <= j < |rows| ==>
      rows[j] == Evaluate(rows[j].item, units * TotalFor(structure, rows[j].item), stock, dest)
  {
    var scaled := Scale(structure, units);
    var keys, totals := GroupByItem(scaled);
    rows := [];
    for j := 0 to |keys|
      invariant |rows| == j
      invariant forall t :: 0 <= t < j ==> rows[t] == Evaluate(keys[t], totals[keys[t]], stock, dest)
    {
      var item := keys[j];
      var required := totals[item];
      var pools := PoolsFor(stock, item);
      var status, alerts := Decide(required, pools, dest);
      rows := rows + [Row(item, required, pools, status, alerts)];
    }
    assert ItemCodes(rows) == keys;
    forall i, j | 0 <= i < j < |keys|
      ensures keys[i] != keys[j]
    {
      StrictlySortedDistinct(keys, i, j);
    }
    forall k
      ensures Occurs(scaled, k) == Occurs(structure, k)
      ensures TotalFor(scaled, k) == units * TotalFor(structure, k)
    {
      ScaledTotal(structure, units, k);
    }
  }
}
