/**
 * The day's total shown by src/app/views/DailyHistroy.tsx:
 * `transacciones.reduce((sum, t) => sum + t.totalPEN, 0)`.
 */
module DailyHistory {
  import opened CajaContext

  /** `reduce` with the running sum `acc`, left to right. */
  function Reduce(acc: real, ts: seq<Transaccion>): real
    decreases ts
  {
    if ts == [] then acc else Reduce(acc + ts[0].totalPEN, ts[1..])
  }

  /** `totalDelDia`: the fold started at 0; an empty day totals 0. */
  function TotalDelDia(ts: seq<Transaccion>): (total: real)
    ensures ts == [] ==> total == 0.0
  {
    Reduce(0.0, ts)
  }

  /** The fold's start value only shifts the result. */
  lemma {:induction false} ReduceShift(acc: real, ts: seq<Transaccion>)
    ensures Reduce(acc, ts) == acc + Reduce(0.0, ts)
    decreases ts
  {
    if ts != [] {
      ReduceShift(acc + ts[0].totalPEN, ts[1..]);
      ReduceShift(ts[0].totalPEN, ts[1..]);
    }
  }

  /** The total of two lists laid end to end is the sum of their totals. */
  lemma {:induction false} TotalConcat(a: seq<Transaccion>, b: seq<Transaccion>)
    ensures TotalDelDia(a + b) == TotalDelDia(a) + TotalDelDia(b)
  {
    if a != [] {
      assert (a + b)[1..] == a[1..] + b;
      ReduceShift(a[0].totalPEN, a[1..] + b);
      ReduceShift(a[0].totalPEN, a[1..]);
      TotalConcat(a[1..], b);
    } else {
      assert a + b == b;
    }
  }

  /** Recording one more transaction adds its `totalPEN` to the day's total. */
  lemma TotalAppend(ts: seq<Transaccion>, t: Transaccion)
    ensures TotalDelDia(ts + [t]) == TotalDelDia(ts) + t.totalPEN
  {
    TotalConcat(ts, [t]);
    assert [t][1..] == [];
    assert Reduce(0.0, [t]) == Reduce(t.totalPEN, []);
  }

  /** Only `totalPEN` counts: time, weight and price per gram do not affect the total. */
  lemma {:induction false} TotalReadsOnlyTotalPEN(a: seq<Transaccion>, b: seq<Transaccion>)
    requires |a| == |b|
    requires forall i :: 0 <= i < |a| ==> a[i].totalPEN == b[i].totalPEN
    ensures TotalDelDia(a) == TotalDelDia(b)
  {
    if a != [] {
      ReduceShift(a[0].totalPEN, a[1..]);
      ReduceShift(b[0].totalPEN, b[1..]);
      TotalReadsOnlyTotalPEN(a[1..], b[1..]);
    }
  }

  /** What the screen shows for a cash box. */
  function TotalCaja(caja: Caja): (total: real)
    reads caja
    ensures caja.transacciones == [] ==> total == 0.0
  {
    TotalDelDia(caja.transacciones)
  }
}
