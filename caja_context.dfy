/**
 * The cash box ("caja") of src/context/SaleContext.tsx, the provider behind
 * `useCaja`: the day's opening record, the closing record and the day's
 * transactions, each a state cell that the four operations overwrite.
 * The context itself never rejects an operation; the screens that call it do
 * the checking.
 */
module CajaContext {
  import opened Numeros

  /** Gold (grams) and cash (soles) at opening, and the calendar day. */
  datatype AperturaCaja = AperturaCaja(oroInicial: real, efectivoInicial: real, fecha: string)

  /** Gold and cash at closing. */
  datatype CierreCaja = CierreCaja(oroFinal: real, efectivoFinal: real)

  /** One recorded sale: its id, the time of day, the weight, the price per gram
      and the total, both in soles. */
  datatype Transaccion = Transaccion(id: string, hora: string, gramos: real, precioGramo: real, totalPEN: real)

  class Caja {
    var apertura: Option<AperturaCaja>
    var cierre: Option<CierreCaja>
    var transacciones: seq<Transaccion>

    /** The provider's initial state: nothing opened, nothing closed, no transactions. */
    predicate IsInitial()
      reads this
    {
      apertura == None && cierre == None && transacciones == []
    }

    constructor()
      ensures IsInitial()
    {
      apertura := None;
      cierre := None;
      transacciones := [];
    }

    /** Opening stores the record, forgets any closing and starts an empty list:
        reopening discards the transactions recorded before. */
    method AbrirCaja(data: AperturaCaja)
      modifies this
      ensures apertura == Some(data) && cierre == None && transacciones == []
    {
      apertura := Some(data);
      transacciones := [];
      cierre := None;
    }

    /** Closing stores the record and touches nothing else. */
    method CerrarCaja(data: CierreCaja)
      modifies this
      ensures cierre == Some(data)
      ensures apertura == old(apertura) && transacciones == old(transacciones)
    {
      cierre := Some(data);
    }

    /** Appends one transaction at the end, whether or not the box is open or closed. */
    method AgregarTransaccion(tx: Transaccion)
      modifies this
      ensures transacciones == old(transacciones) + [tx]
      ensures apertura == old(apertura) && cierre == old(cierre)
    {
      transacciones := transacciones + [tx];
    }

    /** Back to the initial state, from any state; so clearing twice is clearing once. */
    method LimpiarCaja()
      modifies this
      ensures IsInitial()
    {
      apertura := None;
      transacciones := [];
      cierre := None;
    }
  }
}
