/**
 * The transaction list of src/context/TransactionContext.tsx: seeded with two
 * sample records, appended to with the clock as the new id, filtered by id.
 * Nothing keeps ids unique: two additions in the same millisecond, or one that
 * hits a seeded id, share an id, and deleting that id removes all of them.
 */
module TransactionContext {
  import opened Numeros
  import Listas

  datatype TxType = Compra | Venta
  datatype MetalType = Oro | Plata

  /** A transaction as the server stores it (`type` is a keyword here, so `kind`). */
  datatype Transaction = Transaction(
    id: int,
    cash_register_id: int,
    kind: TxType,
    metal_type: MetalType,
    grams: real,
    purity: Option<real>,
    discount_percentage: Option<real>,
    price_per_gram: real,
    total_pen: real,
    total_usd: real,
    exchange_rate: real,
    hora: Option<string>,
    created_by: int,
    created_at: Option<string>)

  function TxId(tx: Transaction): int { tx.id }

  /** The two records the provider starts with, ids 1 and 2 in that order. */
  function Seed(): (s: seq<Transaction>)
    ensures |s| == 2 && s[0].id == 1 && s[1].id == 2
  {
    [ Transaction(1, 1, Compra, Oro, 10.0, Some(95.0), Some(0.0), 250.0, 2500.0, 678.5, 3.68,
                  Some("09:30"), 1, Some("2025-07-04T09:30:00Z")),
      Transaction(2, 2, Venta, Plata, 100.0, Some(90.0), None, 3.2, 320.0, 86.9, 3.68,
                  None, 2, Some("2025-07-04T10:45:00Z")) ]
  }

  class TransactionStore {
    var transactions: seq<Transaction>

    constructor()
      ensures transactions == Seed()
    {
      transactions := Seed();
    }

    /** `addTransaction`: appends a copy of `tx` whose id is the clock reading `now`
        (`Date.now()`); every other field is kept, and no collision is checked. */
    method AddTransaction(tx: Transaction, now: int)
      modifies this
      ensures transactions == old(transactions) + [tx.(id := now)]
    {
      transactions := transactions + [tx.(id := now)];
    }

    /** `deleteTransaction`: drops every record with that id, keeping the order of the rest. */
    method DeleteTransaction(id: int)
      modifies this
      ensures transactions == Listas.RemoveById(old(transactions), TxId, id)
    {
      transactions := Listas.RemoveById(transactions, TxId, id);
    }
  }

  /** Deleting the id just handed out by the clock removes the new record and any
      earlier record that happened to carry the same id, and nothing else. */
  lemma {:induction false} DeleteAfterAdd(ts: seq<Transaction>, tx: Transaction, now: int)
    ensures Listas.RemoveById(ts + [tx.(id := now)], TxId, now) == Listas.RemoveById(ts, TxId, now)
  {
    Listas.RemoveByIdConcat(ts, [tx.(id := now)], TxId, now);
    assert [tx.(id := now)][1..] == [];
  }

  /** Ids are not unique: adding with clock reading 1 to the seeded list gives
      two records with id 1, and deleting 1 removes both. */
  lemma IdsCanCollide(tx: Transaction)
    ensures var ts := Seed() + [tx.(id := 1)];
      ts[0].id == ts[2].id == 1 &&
      Listas.RemoveById(ts, TxId, 1) == [Seed()[1]]
  {
    var ts := Seed() + [tx.(id := 1)];
    assert ts == [ts[0]] + [ts[1]] + [ts[2]];
    Listas.RemoveByIdConcat([ts[0]] + [ts[1]], [ts[2]], TxId, 1);
    Listas.RemoveByIdConcat([ts[0]], [ts[1]], TxId, 1);
  }
}
