/** The allocation rule applied to one item.

    The shortfall is the required quantity minus the destination pool. When
    there is one, it is drained partially from a fixed list of source pools
    (MP, AA, PV for destination PL; MP, AA, PL for destination PV). Each source
    gives `min(shortfall, pool)`, and that amount is recorded only when it is
    positive. For PL, the RP pool is then used directly, but only if it alone
    covers the whole remainder. What is left over is bought. When nothing is
    left over, the item needs a transposition.
 */
module Allocation {
  import opened Ordering
  import opened Stock

  /** The production destinations the rules support. */
  type Destination = c: Category | c == PL || c == PV witness PL

  /** How an alert uses its source: moved into the destination pool, or
      (RP only) used directly. */
  datatype AlertKind = TransferTo(dest: Destination) | DirectUse

  /** One transfer note: this many units from this source, used this way. */
  datatype Alert = Alert(amount: int, source: Category, kind: AlertKind)

  /** The verdict for one item. */
  datatype Status = Ok | Purchase(n: int) | NeedsTransposition

  datatype Verdict = Verdict(status: Status, alerts: seq<Alert>)

  /** What is left of a shortfall after draining, with the notes taken. */
  datatype Drained = Drained(rest: int, alerts: seq<Alert>)

  /** The pools drained for a destination, in the order they are tried. */
  function Sources(dest: Destination): (r: seq<Category>)
  {
    if dest == PL then [MP, AA, PV] else [MP, AA, PL]
  }

  /** Every pool the rule may take from, in the order it may take. */
  function Consulted(dest: Destination): (r: seq<Category>)
  {
    if dest == PL then [MP, AA, PV, RP] else [MP, AA, PL]
  }

  function Min(a: int, b: int): (r: int)
  {
    if a <= b then a else b
  }

  /** One source's turn: it gives `min(rest, pool)`, recorded only when
      positive. */
  function Step(d: Drained, pools: Pools, origin: Category, dest: Destination): (e: Drained)
  {
    var use := Min(d.rest, pools.Get(origin));
    if use > 0 then Drained(d.rest - use, d.alerts + [Alert(use, origin, TransferTo(dest))])
    else d
  }

  /** Draining `shortfall` from the sources, one after the other. */
  function DrainPrefix(shortfall: int, pools: Pools, sources: seq<Category>, dest: Destination): (d: Drained)
  {
    if sources == [] then Drained(shortfall, [])
    else Step(DrainPrefix(shortfall, pools, sources[..|sources| - 1], dest), pools, sources[|sources| - 1], dest)
  }

  /** The drain over a three-source list, step by step. */
  lemma DrainThree(shortfall: int, pools: Pools, a: Category, b: Category, c: Category, dest: Destination)
    ensures DrainPrefix(shortfall, pools, [a, b, c], dest) ==
      Step(Step(Step(Drained(shortfall, []), pools, a, dest), pools, b, dest), pools, c, dest)
    ensures Positive(pools, [a, b, c]) == Pos(pools.Get(a)) + Pos(pools.Get(b)) + Pos(pools.Get(c))
  {
    assert [a, b, c][..2] == [a, b];
    assert [a, b][..1] == [a];
    assert [a][..0] == [];
    assert DrainPrefix(shortfall, pools, [a], dest) == Step(Drained(shortfall, []), pools, a, dest);
    assert DrainPrefix(shortfall, pools, [a, b], dest) == Step(DrainPrefix(shortfall, pools, [a], dest), pools, b, dest);
    assert DrainPrefix(shortfall, pools, [a, b, c], dest) == Step(DrainPrefix(shortfall, pools, [a, b], dest), pools, c, dest);
    assert Positive(pools, [a]) == Pos(pools.Get(a));
    assert Positive(pools, [a, b]) == Positive(pools, [a]) + Pos(pools.Get(b));
    assert Positive(pools, [a, b, c]) == Positive(pools, [a, b]) + Pos(pools.Get(c));
  }

  /** The rule's verdict on one item. */
  function Decision(required: int, pools: Pools, dest: Destination): (v: Verdict)
  {
    var shortfall := required - pools.Get(dest);
    if shortfall <= 0 then Verdict(Ok, [])
    else
      var d := DrainPrefix(shortfall, pools, Sources(dest), dest);
      if dest == PL && d.rest > 0 && pools.rp >= d.rest then
        Verdict(NeedsTransposition, d.alerts + [Alert(d.rest, RP, DirectUse)])
      else if d.rest > 0 then Verdict(Purchase(d.rest), d.alerts)
      else Verdict(NeedsTransposition, d.alerts)
  }

  /** The rule as a step-by-step computation. The shortfall `falta` is
      drained source by source; it never goes negative and never grows. */
  method Decide(required: int, pools: Pools, dest: Destination) returns (status: Status, alerts: seq<Alert>)
    ensures Verdict(status, alerts) == Decision(required, pools, dest)
    ensures status == Ok <==> pools.Get(dest) >= required
    ensures status == Ok ==> alerts == []
  {
    var falta := required - pools.Get(dest);
    alerts := [];
    if falta <= 0 {
      status := Ok;
      return;
    }
    ghost var shortfall := falta;
    var transposed := 0;
    var sources := Sources(dest);
    for s := 0 to |sources|
      invariant Drained(falta, alerts) == DrainPrefix(shortfall, pools, sources[..s], dest)
      invariant 0 <= falta <= shortfall
      invariant transposed + falta == shortfall
    {
      assert sources[..s + 1][..s] == sources[..s];
      var origin := sources[s];
      var use := Min(falta, pools.Get(origin));
      if use > 0 {
        falta := falta - use;
        transposed := transposed + use;
        alerts := alerts + [Alert(use, origin, TransferTo(dest))];
      }
    }
    assert sources[..|sources|] == sources;
    if dest == PL && falta > 0 && pools.rp >= falta {
      alerts := alerts + [Alert(falta, RP, DirectUse)];
      falta := 0;
    }
    if falta > 0 {
      status := Purchase(falta);
    } else {
      status := NeedsTransposition;
    }
  }

  // ---------------------------------------------------------------------
  // Properties of the drain

  function SumAmounts(alerts: seq<Alert>): (total: int)
  {
    if alerts == [] then 0 else SumAmounts(alerts[..|alerts| - 1]) + alerts[|alerts| - 1].amount
  }

  function SourcesOf(alerts: seq<Alert>): (r: seq<Category>)
  {
    seq(|alerts|, i requires 0 <= i < |alerts| => alerts[i].source)
  }

  function Pos(x: int): (r: int)
  {
    if x > 0 then x else 0
  }

  /** The positive parts of the given pools, summed. */
  function Positive(pools: Pools, sources: seq<Category>): (total: int)
  {
    if sources == [] then 0
    else Positive(pools, sources[..|sources| - 1]) + Pos(pools.Get(sources[|sources| - 1]))
  }

  /** One step either leaves the drain as it was or takes a positive
      amount, within the source pool and the open shortfall, in one new
      transfer note. */
  lemma StepBounds(d: Drained, pools: Pools, origin: Category, dest: Destination)
    requires d.rest >= 0
    ensures var e := Step(d, pools, origin, dest);
      && 0 <= e.rest <= d.rest
      && (e == d || e.alerts == d.alerts + [Alert(d.rest - e.rest, origin, TransferTo(dest))])
      && (e != d ==> 0 < d.rest - e.rest <= pools.Get(origin))
  {
  }

  /** With nothing open, no source gives anything. */
  lemma {:induction false} DrainNothingOpen(shortfall: int, pools: Pools, sources: seq<Category>, dest: Destination)
    requires shortfall <= 0
    ensures DrainPrefix(shortfall, pools, sources, dest) == Drained(shortfall, [])
  {
    if sources != [] {
      DrainNothingOpen(shortfall, pools, sources[..|sources| - 1], dest);
    }
  }

  /** The remainder stays between zero and the shortfall, and what is taken
      and what is left add up to the shortfall. */
  lemma {:induction false} DrainBalance(shortfall: int, pools: Pools, sources: seq<Category>, dest: Destination)
    requires shortfall >= 0
    ensures var d := DrainPrefix(shortfall, pools, sources, dest);
      0 <= d.rest <= shortfall && d.rest + SumAmounts(d.alerts) == shortfall
  {
    if sources != [] {
      var init := sources[..|sources| - 1];
      DrainBalance(shortfall, pools, init, dest);
      var d0 := DrainPrefix(shortfall, pools, init, dest);
      StepBounds(d0, pools, sources[|sources| - 1], dest);
      var d := DrainPrefix(shortfall, pools, sources, dest);
      if d != d0 {
        assert d.alerts[..|d0.alerts|] == d0.alerts;
      }
    }
  }

  /** Each note takes a positive amount, at most its source pool, from a
      listed source, as a transfer to the destination. */
  lemma {:induction false} DrainAlerts(shortfall: int, pools: Pools, sources: seq<Category>, dest: Destination)
    requires shortfall >= 0
    ensures var d := DrainPrefix(shortfall, pools, sources, dest);
      forall a :: a in d.alerts ==>
        0 < a.amount <= pools.Get(a.source) && a.kind == TransferTo(dest) && a.source in sources
  {
    if sources != [] {
      var init := sources[..|sources| - 1];
      DrainAlerts(shortfall, pools, init, dest);
      DrainBalance(shortfall, pools, init, dest);
      var d0 := DrainPrefix(shortfall, pools, init, dest);
      StepBounds(d0, pools, sources[|sources| - 1], dest);
      assert forall c :: c in init ==> c in sources;
    }
  }

  /** Each amount is at most the shortfall still open when it is taken. */
  lemma {:induction false} DrainWithinOpen(shortfall: int, pools: Pools, sources: seq<Category>, dest: Destination)
    requires shortfall >= 0
    ensures var d := DrainPrefix(shortfall, pools, sources, dest);
      forall k :: 0 <= k < |d.alerts| ==> d.alerts[k].amount <= shortfall - SumAmounts(d.alerts[..k])
  {
    if sources != [] {
      var init := sources[..|sources| - 1];
      DrainWithinOpen(shortfall, pools, init, dest);
      DrainBalance(shortfall, pools, init, dest);
      var d0 := DrainPrefix(shortfall, pools, init, dest);
      StepBounds(d0, pools, sources[|sources| - 1], dest);
      var d := DrainPrefix(shortfall, pools, sources, dest);
      if d != d0 {
        assert d.alerts[..|d0.alerts|] == d0.alerts;
        forall k | 0 <= k < |d0.alerts|
          ensures d.alerts[..k] == d0.alerts[..k] && d.alerts[k] == d0.alerts[k]
        {
        }
      }
    }
  }

  /** The alerts keep the order of the source list, at most one per source. */
  lemma {:induction false} DrainOrder(shortfall: int, pools: Pools, sources: seq<Category>, dest: Destination)
    ensures Subsequence(SourcesOf(DrainPrefix(shortfall, pools, sources, dest).alerts), sources)
  {
    if sources != [] {
      var init := sources[..|sources| - 1];
      var last := sources[|sources| - 1];
      assert sources == init + [last];
      DrainOrder(shortfall, pools, init, dest);
      var d0 := DrainPrefix(shortfall, pools, init, dest);
      var d := DrainPrefix(shortfall, pools, sources, dest);
      if d.alerts == d0.alerts {
        SubsequenceSkipLast(SourcesOf(d0.alerts), init, last);
      } else {
        assert SourcesOf(d.alerts) == SourcesOf(d0.alerts) + [last];
        SubsequenceKeepLast(SourcesOf(d0.alerts), init, last);
      }
    }
  }

  /** Closed form of the drain: a positive source gives all it has until
      the shortfall is covered, so what is left is the shortfall minus the
      positive sources, but never below zero. */
  lemma {:induction false} DrainRest(shortfall: int, pools: Pools, sources: seq<Category>, dest: Destination)
    requires shortfall >= 0
    ensures DrainPrefix(shortfall, pools, sources, dest).rest == Pos(shortfall - Positive(pools, sources))
  {
    if sources != [] {
      DrainRest(shortfall, pools, sources[..|sources| - 1], dest);
    }
  }

  // ---------------------------------------------------------------------
  // Properties of the verdict

  /** The units the destination can reach by draining, RP aside. */
  function Reach(pools: Pools, dest: Destination): (total: int)
  {
    pools.Get(dest) + Pos(pools.mp) + Pos(pools.aa) + Pos(if dest == PL then pools.pv else pools.pl)
  }

  /** An item is Ok exactly when its destination pool covers the need, and
      an Ok item carries no alerts. */
  lemma OkIff(required: int, pools: Pools, dest: Destination)
    ensures Decision(required, pools, dest).status == Ok <==> pools.Get(dest) >= required
    ensures Decision(required, pools, dest).status == Ok ==> Decision(required, pools, dest).alerts == []
  {
    var shortfall := required - pools.Get(dest);
    if shortfall > 0 {
      DrainBalance(shortfall, pools, Sources(dest), dest);
    }
  }

  /** The verdict in closed form. Ok when the destination pool covers the
      need; otherwise the positive parts of MP, AA and the other destination
      pool are drained; the remainder r is bought, unless r is zero or (for
      PL) RP alone holds r, and then a transposition is needed. */
  lemma StatusClosedForm(required: int, pools: Pools, dest: Destination)
    ensures Decision(required, pools, dest).status ==
      if required <= pools.Get(dest) then Ok
      else if required <= Reach(pools, dest) then NeedsTransposition
      else if dest == PL && pools.rp >= required - Reach(pools, dest) then NeedsTransposition
      else Purchase(required - Reach(pools, dest))
  {
    var shortfall := required - pools.Get(dest);
    if shortfall > 0 {
      var srcs := Sources(dest);
      DrainRest(shortfall, pools, srcs, dest);
      DrainThree(shortfall, pools, srcs[0], srcs[1], srcs[2], dest);
    }
  }

  /** After a shortfall is found: a purchase is of the positive remainder,
      and the alerts' amounts make up the rest of the shortfall; a
      transposition covers the shortfall exactly with the alerts' amounts. */
  lemma SettlesShortfall(required: int, pools: Pools, dest: Destination)
    ensures var v := Decision(required, pools, dest);
      v.status.Purchase? ==> v.status.n > 0 && SumAmounts(v.alerts) + v.status.n == required - pools.Get(dest)
    ensures var v := Decision(required, pools, dest);
      v.status == NeedsTransposition ==> SumAmounts(v.alerts) == required - pools.Get(dest)
  {
    var shortfall := required - pools.Get(dest);
    if shortfall > 0 {
      DrainBalance(shortfall, pools, Sources(dest), dest);
    }
  }

  /** Every alert takes a positive amount its source pool holds. Transfers
      go to the destination; the one direct use is of RP, for PL only, comes
      last, and covers the whole remainder of the drain. */
  lemma AlertsBounded(required: int, pools: Pools, dest: Destination)
    ensures var v := Decision(required, pools, dest);
      forall a :: a in v.alerts ==> 0 < a.amount <= pools.Get(a.source)
    ensures var v := Decision(required, pools, dest);
      forall a :: a in v.alerts ==> (a.kind == DirectUse <==> a.source == RP)
    ensures var v := Decision(required, pools, dest);
      forall a :: a in v.alerts && a.kind != DirectUse ==> a.kind == TransferTo(dest)
  {
    var shortfall := required - pools.Get(dest);
    if shortfall > 0 {
      DrainAlerts(shortfall, pools, Sources(dest), dest);
      DrainBalance(shortfall, pools, Sources(dest), dest);
      var d := DrainPrefix(shortfall, pools, Sources(dest), dest);
      assert RP !in Sources(dest);
      var v := Decision(required, pools, dest);
      if v.alerts != d.alerts {
        assert v.alerts == d.alerts + [Alert(d.rest, RP, DirectUse)];
      }
    }
  }

  /** The alerts follow the consultation order MP, AA, then PV (for PL,
      followed by RP) or PL (for PV), with at most one alert per source;
      RP is never consulted for PV. */
  lemma AlertOrder(required: int, pools: Pools, dest: Destination)
    ensures Subsequence(SourcesOf(Decision(required, pools, dest).alerts), Consulted(dest))
    ensures Distinct(SourcesOf(Decision(required, pools, dest).alerts))
  {
    var v := Decision(required, pools, dest);
    var shortfall := required - pools.Get(dest);
    if shortfall > 0 {
      DrainOrder(shortfall, pools, Sources(dest), dest);
      var d := DrainPrefix(shortfall, pools, Sources(dest), dest);
      if dest == PL {
        assert Consulted(PL) == Sources(PL) + [RP];
        if v.alerts == d.alerts {
          SubsequenceSkipLast(SourcesOf(d.alerts), Sources(dest), RP);
        } else {
          assert SourcesOf(v.alerts) == SourcesOf(d.alerts) + [RP];
          SubsequenceKeepLast(SourcesOf(d.alerts), Sources(dest), RP);
        }
      }
    }
    SubsequenceDistinct(SourcesOf(v.alerts), Consulted(dest));
  }

  /** RP is used directly exactly when the destination is PL and, after the
      drain, RP alone holds the whole positive remainder; it then takes that
      remainder in one last alert, and no partial RP amount is ever used. */
  lemma RPDirectUse(required: int, pools: Pools, dest: Destination)
    ensures var r := DrainPrefix(required - pools.Get(dest), pools, Sources(dest), dest).rest;
      var v := Decision(required, pools, dest);
      (exists a :: a in v.alerts && a.kind == DirectUse) <==> (dest == PL && r > 0 && pools.rp >= r)
    ensures var r := DrainPrefix(required - pools.Get(dest), pools, Sources(dest), dest).rest;
      var v := Decision(required, pools, dest);
      dest == PL && r > 0 && pools.rp >= r ==>
        v.alerts[|v.alerts| - 1] == Alert(r, RP, DirectUse) && v.status == NeedsTransposition
  {
    var shortfall := required - pools.Get(dest);
    var v := Decision(required, pools, dest);
    if shortfall <= 0 {
      DrainNothingOpen(shortfall, pools, Sources(dest), dest);
      assert v.alerts == [];
    } else {
      DrainBalance(shortfall, pools, Sources(dest), dest);
      DrainAlerts(shortfall, pools, Sources(dest), dest);
      var d := DrainPrefix(shortfall, pools, Sources(dest), dest);
      if dest == PL && d.rest > 0 && pools.rp >= d.rest {
        assert v.alerts[|v.alerts| - 1] in v.alerts;
      } else {
        assert v.alerts == d.alerts;
      }
    }
  }

  /** For destination PV the RP pool is never consulted: changing it
      changes nothing in the verdict. */
  lemma PVIgnoresRP(required: int, pools: Pools, rp: int)
    ensures Decision(required, pools, PV) == Decision(required, pools.(rp := rp), PV)
  {
    var other := pools.(rp := rp);
    assert forall c :: c in Sources(PV) ==> other.Get(c) == pools.Get(c);
    DrainIgnores(required - pools.Get(PV), pools, other, Sources(PV), PV);
  }

  /** The drain only reads the pools it drains. */
  lemma {:induction false} DrainIgnores(shortfall: int, p: Pools, q: Pools, sources: seq<Category>, dest: Destination)
    requires forall c :: c in sources ==> p.Get(c) == q.Get(c)
    ensures DrainPrefix(shortfall, p, sources, dest) == DrainPrefix(shortfall, q, sources, dest)
  {
    if sources != [] {
      var init := sources[..|sources| - 1];
      assert forall c :: c in init ==> c in sources;
      DrainIgnores(shortfall, p, q, init, dest);
    }
  }

  // ---------------------------------------------------------------------
  // Worked cases

  /** PV holds the need for PL: it is transferred. */
  lemma TransferFromPV()
    ensures Decision(100, Pools(0, 150, 0, 0, 0), PL) ==
      Verdict(NeedsTransposition, [Alert(100, PV, TransferTo(PL))])
  {
    DrainThree(100, Pools(0, 150, 0, 0, 0), MP, AA, PV, PL);
  }

  /** The drain is partial: 30 units of PV are taken, and RP (40) is not
      used because it does not cover the remaining 70 on its own. */
  lemma PartialDrainThenPurchase()
    ensures Decision(100, Pools(0, 30, 40, 0, 0), PL) ==
      Verdict(Purchase(70), [Alert(30, PV, TransferTo(PL))])
  {
    DrainThree(100, Pools(0, 30, 40, 0, 0), MP, AA, PV, PL);
  }

  /** MP and AA together cover a PV need: both are taken, AA partially. */
  lemma TwoSourcesForPV()
    ensures Decision(50, Pools(0, 0, 0, 20, 40), PV) ==
      Verdict(NeedsTransposition, [Alert(20, MP, TransferTo(PV)), Alert(30, AA, TransferTo(PV))])
  {
    DrainThree(50, Pools(0, 0, 0, 20, 40), MP, AA, PL, PV);
  }
}
