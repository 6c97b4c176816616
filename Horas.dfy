/**
 * Hour and fuel arithmetic of a vessel: `calcular_horas_motor`
 * (gerenciador_ativos/ativos/utils.py), `calcular_consumo`
 * (gerenciador_ativos/ativos/painel.py) and the methods of the vessel
 * model in gerenciador_ativos/ativos/models.py.
 */
module Horas {
  import opened Py

  /** `(a or 0.0) + (b or 0.0)` on two nullable float columns. */
  function SomaHoras(a: Option<real>, b: Option<real>): (h: real)
    ensures a.None? ==> h == OrZero(b)
    ensures b.None? ==> h == OrZero(a)
  {
    OrZero(a) + OrZero(b)
  }

  /** Hours times a litres-per-hour rate; no rate, no fuel. */
  function Litros(horas: real, taxa: real): (l: real)
    ensures taxa == 0.0 ==> l == 0.0
    ensures horas >= 0.0 && taxa >= 0.0 ==> l >= 0.0
  {
    horas * taxa
  }

  // ---------------------------------------------------------------------
  // utils.py
  // ---------------------------------------------------------------------

  /**
   * `calcular_horas_motor(ativo)`: offset plus system hours, missing values
   * read as 0, rounded to one decimal.
   */
  function CalcularHorasMotor(horasOffset: Option<real>, horasSistema: Option<real>): (h: real)
    ensures SomaHoras(horasOffset, horasSistema) - HalfUnit(1) <= h <= SomaHoras(horasOffset, horasSistema) + HalfUnit(1)
    ensures HasDecimals(h, 1)
  {
    Round(SomaHoras(horasOffset, horasSistema), 1)
  }

  /** Raising the offset by d raises the unrounded hours by exactly d. */
  lemma OffsetDesloca(horasOffset: Option<real>, horasSistema: Option<real>, d: real)
    ensures SomaHoras(Some(OrZero(horasOffset) + d), horasSistema) == SomaHoras(horasOffset, horasSistema) + d
  {
  }

  /** A larger offset never gives fewer rounded hours. */
  lemma HorasMonotonasNoOffset(o1: real, o2: real, horasSistema: Option<real>)
    requires o1 <= o2
    ensures CalcularHorasMotor(Some(o1), horasSistema) <= CalcularHorasMotor(Some(o2), horasSistema)
  {
    RoundMonotone(SomaHoras(Some(o1), horasSistema), SomaHoras(Some(o2), horasSistema), 1);
  }

  // ---------------------------------------------------------------------
  // painel.py
  // ---------------------------------------------------------------------

  /** The three values the panel and consumption pages show. */
  datatype Consumo = Consumo(horasMotor: real, consumoLph: real, consumoTotal: real)

  /**
   * `calcular_consumo(ativo)`: engine hours as offset plus system hours, the
   * litres-per-hour rate, and their product, each rounded to two decimals.
   */
  function CalcularConsumo(horasOffset: Option<real>, horasSistema: Option<real>, consumoLph: Option<real>)
    : (c: Consumo)
    ensures var h := SomaHoras(horasOffset, horasSistema);
            h - HalfUnit(2) <= c.horasMotor <= h + HalfUnit(2)
    ensures OrZero(consumoLph) - HalfUnit(2) <= c.consumoLph <= OrZero(consumoLph) + HalfUnit(2)
    ensures var total := Litros(SomaHoras(horasOffset, horasSistema), OrZero(consumoLph));
            total - HalfUnit(2) <= c.consumoTotal <= total + HalfUnit(2)
    ensures HasDecimals(c.horasMotor, 2) && HasDecimals(c.consumoLph, 2) && HasDecimals(c.consumoTotal, 2)
  {
    var horasMotor := SomaHoras(horasOffset, horasSistema);
    var lph := OrZero(consumoLph);
    Consumo(Round(horasMotor, 2), Round(lph, 2), Round(Litros(horasMotor, lph), 2))
  }

  /** Without a rate there is no consumption, whatever the hours. */
  lemma SemTaxaSemConsumo(horasOffset: Option<real>, horasSistema: Option<real>, consumoLph: Option<real>)
    requires Falsy(consumoLph)
    ensures CalcularConsumo(horasOffset, horasSistema, consumoLph).consumoTotal == 0.0
    ensures CalcularConsumo(horasOffset, horasSistema, consumoLph).consumoLph == 0.0
  {
    var h := SomaHoras(horasOffset, horasSistema);
    var lph := OrZero(consumoLph);
    assert lph == 0.0;
    RoundZero(2);
    assert CalcularConsumo(horasOffset, horasSistema, consumoLph) == Consumo(Round(h, 2), Round(lph, 2), Round(Litros(h, lph), 2));
  }

  /** The panel's hours and the hour meter agree before rounding. */
  lemma PainelConcordaComHorimetro(horasOffset: Option<real>, horasSistema: Option<real>, consumoLph: Option<real>)
    ensures CalcularConsumo(horasOffset, horasSistema, consumoLph).horasMotor
            == Round(SomaHoras(horasOffset, horasSistema), 2)
    ensures CalcularHorasMotor(horasOffset, horasSistema) == Round(SomaHoras(horasOffset, horasSistema), 1)
  {
  }

  // ---------------------------------------------------------------------
  // ativos/models.py
  // ---------------------------------------------------------------------

  /** `consumo_estimado()`: hours times rate, 0 when either is 0 or missing. */
  function ConsumoEstimado(horasMotor: Option<real>, consumoLitrosHora: Option<real>): (c: real)
    ensures Falsy(horasMotor) || Falsy(consumoLitrosHora) ==> c == 0.0
    ensures !Falsy(horasMotor) && !Falsy(consumoLitrosHora) ==>
              var total := Litros(horasMotor.value, consumoLitrosHora.value);
              total - HalfUnit(2) <= c <= total + HalfUnit(2) && HasDecimals(c, 2)
  {
    if Falsy(consumoLitrosHora) || Falsy(horasMotor) then 0.0
    else Round(Litros(horasMotor.value, consumoLitrosHora.value), 2)
  }

  /** `consumo_medio()`: the rate rounded to two decimals, missing read as 0. */
  function ConsumoMedio(consumoLitrosHora: Option<real>): (c: real)
    ensures consumoLitrosHora.None? ==> c == 0.0
    ensures OrZero(consumoLitrosHora) - HalfUnit(2) <= c <= OrZero(consumoLitrosHora) + HalfUnit(2)
    ensures HasDecimals(c, 2)
  {
    RoundZero(2);
    Round(OrZero(consumoLitrosHora), 2)
  }

  /** The vessel row of gerenciador_ativos/ativos/models.py, hour and fuel columns. */
  class Embarcacao {
    var horasMotor: Option<real>
    var horasOffset: Option<real>
    var horasTotal: Option<real>
    var consumoLitrosHora: Option<real>

    constructor (horasMotor: Option<real>, horasOffset: Option<real>, horasTotal: Option<real>, consumoLitrosHora: Option<real>)
      ensures this.horasMotor == horasMotor && this.horasOffset == horasOffset
      ensures this.horasTotal == horasTotal && this.consumoLitrosHora == consumoLitrosHora
    {
      this.horasMotor := horasMotor;
      this.horasOffset := horasOffset;
      this.horasTotal := horasTotal;
      this.consumoLitrosHora := consumoLitrosHora;
    }

    /** `recalcular_horas()`: the total becomes hours plus offset; nothing else changes. */
    method RecalcularHoras()
      modifies this
      ensures horasTotal == Some(SomaHoras(old(horasMotor), old(horasOffset)))
      ensures horasMotor == old(horasMotor) && horasOffset == old(horasOffset)
      ensures consumoLitrosHora == old(consumoLitrosHora)
    {
      horasTotal := Some(OrZero(horasMotor) + OrZero(horasOffset));
    }

    function Estimado(): real
      reads this
    {
      ConsumoEstimado(horasMotor, consumoLitrosHora)
    }

    function Medio(): real
      reads this
    {
      ConsumoMedio(consumoLitrosHora)
    }
  }

  /** Recalculating twice gives the same row as recalculating once. */
  method RecalcularDuasVezes(e: Embarcacao)
    modifies e
    ensures e.horasTotal == Some(SomaHoras(old(e.horasMotor), old(e.horasOffset)))
    ensures e.horasMotor == old(e.horasMotor) && e.horasOffset == old(e.horasOffset)
    ensures e.consumoLitrosHora == old(e.consumoLitrosHora)
  {
    e.RecalcularHoras();
    e.RecalcularHoras();
  }
}
