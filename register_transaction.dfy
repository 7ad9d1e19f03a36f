/**
 * The "Registrar transacción" screen of src/app/views/RegisterTransaction.tsx:
 * five text fields, a confirmation modal, and `registrar`, which prices the
 * fields with `calcularValores` (src/utils/calculadora.ts) and appends a record
 * to the cash box. The uuid and the time of day are parameters.
 */
module RegisterTransaction {
  import opened Numeros
  import opened CajaContext
  import A = AppCalculadora
  import Calculadora
  import Example

  /** The keys of `ValoresEntrada`, as `setValue` receives them. */
  datatype Campo = PricePerOz | ExchangeRate | Purity | Grams | DiscountPercentage

  /** The form as it starts and as `registrar` leaves it: every field empty. */
  const Vacio := A.ValoresEntrada("", "", "", "", "")

  function Leer(e: A.ValoresEntrada, campo: Campo): string {
    match campo
    case PricePerOz => e.pricePerOz
    case ExchangeRate => e.exchangeRate
    case Purity => e.purity
    case Grams => e.grams
    case DiscountPercentage => e.discountPercentage
  }

  /** `{ ...prev, [key]: value }`: the named field takes the new text, the others keep theirs. */
  function Asignar(e: A.ValoresEntrada, campo: Campo, value: string): (r: A.ValoresEntrada)
    ensures Leer(r, campo) == value
    ensures forall c :: c != campo ==> Leer(r, c) == Leer(e, c)
  {
    match campo
    case PricePerOz => e.(pricePerOz := value)
    case ExchangeRate => e.(exchangeRate := value)
    case Purity => e.(purity := value)
    case Grams => e.(grams := value)
    case DiscountPercentage => e.(discountPercentage := value)
  }

  /** The record `registrar` builds from the five fields once read as numbers. Its
      weight is the weight read, and its total is its price per gram times that
      weight, or 0 when the weight is not positive or the price cannot be computed. */
  function Asiento(id: string, hora: string, oz: real, rate: real, pur: real, g: real, discount: real): (t: Transaccion)
    ensures t.id == id && t.hora == hora && t.gramos == g
    ensures g > 0.0 ==> t.totalPEN == t.precioGramo * g
    ensures g <= 0.0 ==> t.totalPEN == 0.0
    ensures !(oz > 0.0 && rate > 0.0 && pur > 0.0) ==> t.precioGramo == 0.0 && t.totalPEN == 0.0
  {
    var r := Calculadora.Calcular(oz, rate, pur, g, discount);
    Transaccion(id, hora, g, r.pricePerGramPEN, r.totalPEN)
  }

  /** The record for the form `e`: `Asiento` of its fields read as numbers. The weight
      is the weight field read; a form whose price cannot be computed records 0 as both
      price and total. */
  function Registro(id: string, hora: string, e: A.ValoresEntrada): (t: Transaccion)
    ensures t.gramos == A.Grams(e)
    ensures !A.CanCalculatePrice(e) ==> t.precioGramo == 0.0 && t.totalPEN == 0.0
  {
    Asiento(id, hora, A.Oz(e), A.Rate(e), A.Purity(e), A.Grams(e), A.Discount(e))
  }

  class RegistroTransaccion {
    /** The cash box of the surrounding `CajaProvider`. */
    const caja: Caja
    var inputs: A.ValoresEntrada
    var showModal: bool

    constructor(caja: Caja)
      ensures this.caja == caja && inputs == Vacio && !showModal
    {
      this.caja := caja;
      inputs := Vacio;
      showModal := false;
    }

    /** `setValue`: one field takes the typed text. */
    method SetValue(campo: Campo, value: string)
      modifies this
      ensures inputs == Asignar(old(inputs), campo, value) && showModal == old(showModal)
    {
      inputs := Asignar(inputs, campo, value);
    }

    /** The "Registrar transacción" button opens the confirmation modal. */
    method AbrirModal()
      modifies this
      ensures showModal && inputs == old(inputs)
    {
      showModal := true;
    }

    /** The modal's cancel button closes it and keeps the form. */
    method Cancelar()
      modifies this
      ensures !showModal && inputs == old(inputs)
    {
      showModal := false;
    }

    /** `registrar`: with a valid price and an open box, append the record, clear the
        form and close the modal; otherwise (the error alert) change nothing. A closed
        box (`cierre` set) does not stop it. */
    method Registrar(id: string, hora: string) returns (registrada: bool)
      modifies this, caja
      ensures registrada <==> A.CanCalculatePrice(old(inputs)) && old(caja.apertura).Some?
      ensures caja.apertura == old(caja.apertura) && caja.cierre == old(caja.cierre)
      ensures registrada ==>
        caja.transacciones == old(caja.transacciones) + [Registro(id, hora, old(inputs))] &&
        inputs == Vacio && !showModal
      ensures !registrada ==>
        caja.transacciones == old(caja.transacciones) && inputs == old(inputs) && showModal == old(showModal)
    {
      var r := Calculadora.CalcularValores(inputs);
      if !r.valido || caja.apertura.None? {
        return false;
      }
      caja.AgregarTransaccion(Registro(id, hora, inputs));
      inputs := Vacio;
      showModal := false;
      return true;
    }
  }

  /** The example form makes a 10 g record worth about 1701.26 PEN. */
  lemma RegistroEjemplo(id: string, hora: string)
    ensures Registro(id, hora, Example.Sample).gramos == 10.0
    ensures 1701.26 < Registro(id, hora, Example.Sample).totalPEN < 1701.27
  {
    Example.SamplePrices();
    Example.ReadsSample();
    assert Registro(id, hora, Example.Sample).totalPEN == Calculadora.CalcularValores(Example.Sample).totalPEN;
  }

  /** The record holds exactly the calculator's PEN price and total for the form. */
  lemma RegistroDelCalculador(id: string, hora: string, e: A.ValoresEntrada)
    ensures Registro(id, hora, e) == Transaccion(id, hora, A.Grams(e),
      Calculadora.CalcularValores(e).pricePerGramPEN, Calculadora.CalcularValores(e).totalPEN)
  {
  }

  /** The screen as written reads a `grams` key from the result of `calcularValores`,
      which has no such key: the value is `undefined` (`None`) whatever the result. */
  function GramsAsWritten(r: A.ValoresCalculados): Option<real> {
    None
  }

  /** One render of the screen. */
  datatype Render = Rendered(showModal: bool) | Thrown

  /** A render of the screen as written. The confirmation modal's body is built on
      every render, whether the modal is shown or not, and it formats
      `grams.toFixed(2)`; on `undefined` that throws. So no render succeeds, the
      "Confirmar" button never exists and `registrar` is never reached: as written,
      this screen never appends a record. */
  function RenderAsWritten(e: A.ValoresEntrada, showModal: bool): (r: Render)
    ensures r == Thrown
  {
    match GramsAsWritten(Calculadora.CalcularValores(e))
    case None => Thrown
    case Some(_) => Rendered(showModal)
  }

  /** The worked example: as written the screen cannot even be shown, with the modal
      hidden or open, although the form is valid; `Registrar` records its 10 g. */
  lemma SampleAsWritten(id: string, hora: string)
    ensures RenderAsWritten(Example.Sample, false) == Thrown
    ensures RenderAsWritten(Example.Sample, true) == Thrown
    ensures A.CanCalculatePrice(Example.Sample)
    ensures Registro(id, hora, Example.Sample).gramos == 10.0
  {
    assert Calculadora.CalcularValores(Example.Sample).valido by { Example.SamplePrices(); }
    RegistroEjemplo(id, hora);
  }

  /** Types the form `e` into the screen, field by field. */
  method Llenar(pantalla: RegistroTransaccion, e: A.ValoresEntrada)
    modifies pantalla
    ensures pantalla.inputs == e && pantalla.showModal == old(pantalla.showModal)
  {
    pantalla.SetValue(PricePerOz, e.pricePerOz);
    pantalla.SetValue(ExchangeRate, e.exchangeRate);
    pantalla.SetValue(Purity, e.purity);
    pantalla.SetValue(Grams, e.grams);
    pantalla.SetValue(DiscountPercentage, e.discountPercentage);
  }

  /** A session on a fresh box with the form `e`: it is refused before the box is
      opened; once the box is open, and again after it is closed, it is accepted
      exactly when its price can be computed (the example form can, see
      `Example.SamplePrices`). */
  method Sesion(e: A.ValoresEntrada) returns (antes: bool, abierta: bool, cerrada: bool, transacciones: seq<Transaccion>)
    ensures !antes
    ensures abierta == cerrada == A.CanCalculatePrice(e)
    ensures transacciones ==
      if A.CanCalculatePrice(e) then [Registro("a", "09:00", e), Registro("b", "09:05", e)] else []
  {
    var valido := A.CanCalculatePrice(e);
    var caja := new Caja();
    var pantalla := new RegistroTransaccion(caja);
    Llenar(pantalla, e);
    antes := pantalla.Registrar("a", "09:00");
    assert caja.transacciones == [];

    caja.AbrirCaja(AperturaCaja(0.0, 0.0, "2025-07-04"));
    abierta := pantalla.Registrar("a", "09:00");
    var uno := caja.transacciones;
    assert uno == if valido then [Registro("a", "09:00", e)] else [];

    caja.CerrarCaja(CierreCaja(0.0, 0.0));
    Llenar(pantalla, e);
    cerrada := pantalla.Registrar("b", "09:05");
    assert caja.transacciones == if valido then uno + [Registro("b", "09:05", e)] else uno;
    transacciones := caja.transacciones;
  }
}
