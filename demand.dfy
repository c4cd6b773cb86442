/** The product structure (bill of materials) and its aggregation.

    Every line's quantity is multiplied by the number of units to produce,
    and the scaled lines are then summed per item code, as the pandas
    `groupby('Item')['Quantidade'].sum()` call does: one group per distinct
    code, the groups in increasing order of the code.
 */
module Demand {
  import opened Ordering

  /** One line of the product structure: an item code and its quantity. */
  datatype DemandLine = DemandLine(item: string, qty: int)

  /** The structure with every quantity multiplied by `units`, as new values
      (the caller's lines are left as they were). */
  function Scale(lines: seq<DemandLine>, units: int): (scaled: seq<DemandLine>)
  {
    seq(|lines|, i requires 0 <= i < |lines| => DemandLine(lines[i].item, lines[i].qty * units))
  }

  /** Some line of the structure names item code k. */
  predicate Occurs(lines: seq<DemandLine>, k: string)
  {
    if lines == [] then false
    else Occurs(lines[..|lines| - 1], k) || lines[|lines| - 1].item == k
  }

  /** The sum of the quantities of the lines whose code is exactly k. */
  function TotalFor(lines: seq<DemandLine>, k: string): (total: int)
  {
    if lines == [] then 0
    else
      var last := lines[|lines| - 1];
      TotalFor(lines[..|lines| - 1], k) + (if last.item == k then last.qty else 0)
  }

  /** A code that no line names has nothing to sum. */
  lemma {:induction false} AbsentTotal(lines: seq<DemandLine>, k: string)
    requires !Occurs(lines, k)
    ensures TotalFor(lines, k) == 0
  {
    if lines != [] {
      AbsentTotal(lines[..|lines| - 1], k);
    }
  }

  /** Summing the scaled lines of a code is scaling the sum of its lines,
      and scaling neither adds nor removes a code. */
  lemma {:induction false} ScaledTotal(lines: seq<DemandLine>, units: int, k: string)
    ensures TotalFor(Scale(lines, units), k) == units * TotalFor(lines, k)
    ensures Occurs(Scale(lines, units), k) == Occurs(lines, k)
  {
    if lines != [] {
      var n := |lines| - 1;
      assert Scale(lines, units)[..n] == Scale(lines[..n], units);
      ScaledTotal(lines[..n], units, k);
      var q := lines[n].qty;
      var t := TotalFor(lines[..n], k);
      if lines[n].item == k {
        calc {
          TotalFor(Scale(lines, units), k);
          units * t + q * units;
          { assert q * units == units * q; }
          units * t + units * q;
          units * (t + q);
        }
      }
    }
  }

  /** Groups the lines by item code. The keys come back strictly increasing
      (one per distinct code, in pandas' sorted group order); `totals` maps
      every code of the structure, and only those, to the sum of its lines. */
  method GroupByItem(lines: seq<DemandLine>) returns (keys: seq<string>, totals: map<string, int>)
    ensures StrictlySorted(keys)
    ensures forall k :: k in keys <==> k in totals
    ensures forall k :: k in totals <==> Occurs(lines, k)
    ensures forall k :: k in totals ==> totals[k] == TotalFor(lines, k)
  {
    keys, totals := [], map[];
    var i := 0;
    while i < |lines|
      invariant 0 <= i <= |lines|
      invariant StrictlySorted(keys)
      invariant forall k :: k in keys <==> k in totals
      invariant forall k :: k in totals <==> Occurs(lines[..i], k)
      invariant forall k :: k in totals ==> totals[k] == TotalFor(lines[..i], k)
    {
      var line := lines[i];
      assert lines[..i + 1][..i] == lines[..i];
      keys := Insert(keys, line.item);
      var sofar := if line.item in totals then totals[line.item] else 0;
      if line.item !in totals {
        AbsentTotal(lines[..i], line.item);
      }
      totals := totals[line.item := sofar + line.qty];
      i := i + 1;
    }
    assert lines[..i] == lines;
  }
}
