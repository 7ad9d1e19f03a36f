/**
 * The append-only list of src/context/TransaccionesContext.tsx. Its record type
 * has the same five fields as the cash box's, so it is the same `Transaccion`.
 */
module TransaccionesContext {
  import opened CajaContext

  class TransaccionesStore {
    var transacciones: seq<Transaccion>

    constructor()
      ensures transacciones == []
    {
      transacciones := [];
    }

    /** Appends any record at the end: no validation, no duplicate-id check. */
    method AgregarTransaccion(t: Transaccion)
      modifies this
      ensures transacciones == old(transacciones) + [t]
    {
      transacciones := transacciones + [t];
    }
  }
}
