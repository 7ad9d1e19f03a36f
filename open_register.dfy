/**
 * The opening screen of src/app/views/OpenRegister.tsx: the starting gold and
 * cash are read with plain `parseFloat` (no decimal comma, no `|| 0`) and only a
 * NaN is refused; the date is the part of the ISO timestamp before its 'T'.
 * The clock's ISO text is a parameter.
 */
module OpenRegister {
  import opened Numeros
  import opened CajaContext
  import DailyHistory

  /** `iso.split("T")[0]`: the text up to the first 'T', or all of it if there is none. */
  function Fecha(iso: string): (d: string)
    ensures d <= iso
    ensures 'T' !in d
    ensures |d| < |iso| ==> iso[|d|] == 'T'
  {
    if iso == [] || iso[0] == 'T' then [] else [iso[0]] + Fecha(iso[1..])
  }

  /** `abrir`: if both texts read as numbers, open the box with them and today's date;
      otherwise (the error alert) leave the box as it was. */
  method Abrir(caja: Caja, oro: string, efectivo: string, iso: string) returns (abierta: bool)
    modifies caja
    ensures abierta <==> ParseFloat(oro).Some? && ParseFloat(efectivo).Some?
    ensures abierta ==>
      caja.apertura == Some(AperturaCaja(ParseFloat(oro).value, ParseFloat(efectivo).value, Fecha(iso))) &&
      caja.cierre == None && caja.transacciones == [] && DailyHistory.TotalCaja(caja) == 0.0
    ensures !abierta ==>
      caja.apertura == old(caja.apertura) && caja.cierre == old(caja.cierre) &&
      caja.transacciones == old(caja.transacciones)
  {
    var oroInicial := ParseFloat(oro);
    var efectivoInicial := ParseFloat(efectivo);
    if oroInicial.None? || efectivoInicial.None? {
      return false;
    }
    caja.AbrirCaja(AperturaCaja(oroInicial.value, efectivoInicial.value, Fecha(iso)));
    return true;
  }

  /** An empty field, or one with no digits at all, is refused. */
  lemma RefusesNoDigits(s: string)
    requires forall i :: 0 <= i < |s| ==> !IsDigit(s[i])
    ensures ParseFloat(s).None?
  {
  }

  /** A negative amount is accepted as it stands: "-5" opens the box with -5. */
  lemma AcceptsNegative()
    ensures ParseFloat("-5").Some? && ParseFloat("-5").value == -5.0
  {
    assert AllDigits("5");
    assert "5" == "5" + [];
    WholeLiteral("5", []);
    assert "-5" == ['-'] + "5";
    NegatedLiteral("5");
    assert DigitsValue("5") == 5.0;
  }

  /** A decimal comma is not understood here: "1,5" opens the box with 1, not 1.5. */
  lemma CommaTruncates()
    ensures ParseFloat("1,5").Some? && ParseFloat("1,5").value == 1.0
  {
    assert AllDigits("1");
    assert "1,5" == "1" + ",5";
    WholeLiteral("1", ",5");
    assert DigitsValue("1") == 1.0;
  }

  /** The date of "2025-07-04T09:30:00Z" is "2025-07-04". */
  lemma FechaExample()
    ensures Fecha("2025-07-04T09:30:00Z") == "2025-07-04"
  {
    var iso := "2025-07-04T09:30:00Z";
    FechaUnique(iso, "2025-07-04");
  }

  /** The three properties of `Fecha` pin it down: any prefix without a 'T' that is
      followed by a 'T' or ends the text is the date. */
  lemma {:induction false} FechaUnique(iso: string, d: string)
    requires d <= iso && 'T' !in d
    requires |d| < |iso| ==> iso[|d|] == 'T'
    ensures Fecha(iso) == d
  {
    if d == [] {
    } else {
      assert iso[0] == d[0];
      FechaUnique(iso[1..], d[1..]);
    }
  }
}
