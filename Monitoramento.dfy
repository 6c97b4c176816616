/**
 * The monitoring panel endpoint (gerenciador_ativos/api/monitoramento/routes.py):
 * which outcome `obter_dados` returns, and how `montar_resposta_painel` maps
 * the normalised telemetry to the panel's JSON.
 */
module Monitoramento {
  import opened Py
  import opened Http
  import BrasilSat

  /** The body `montar_resposta_painel` returns; it has no "raw" entry. */
  datatype RespostaPainel = RespostaPainel(
    imei: PyValue,
    motorLigado: PyValue,
    horasMotor: real,
    tensaoBateria: PyValue,
    latitude: PyValue,
    longitude: PyValue,
    velocidade: PyValue,
    direcao: PyValue,
    servertime: PyValue)
  {
    function ComoDict(): Dict {
      map[
        "imei" := imei,
        "motor_ligado" := motorLigado,
        "horas_motor" := PyFloat(horasMotor),
        "tensao_bateria" := tensaoBateria,
        "latitude" := latitude,
        "longitude" := longitude,
        "velocidade" := velocidade,
        "direcao" := direcao,
        "servertime" := servertime
      ]
    }
  }

  /** The raw record is never part of the panel body. */
  lemma SemRaw(r: RespostaPainel)
    ensures "raw" !in r.ComoDict()
  {
  }

  /** `round(telem.get("horas_motor") or 0, 2)` does not raise. */
  predicate HorasArredondaveis(telem: Dict) {
    var h := Get(telem, "horas_motor");
    !Truthy(h) || AsNumber(h).Some?
  }

  /**
   * `montar_resposta_painel(telem)`; None when round() raises a TypeError
   * because "horas_motor" is not a number.
   */
  function MontarRespostaPainel(telem: Dict): (r: Option<RespostaPainel>)
    ensures r.Some? <==> HorasArredondaveis(telem)
    // these are passed through unchanged
    ensures r.Some? ==>
      && r.value.imei == Get(telem, "imei")
      && r.value.tensaoBateria == Get(telem, "tensao_bateria")
      && r.value.latitude == Get(telem, "latitude")
      && r.value.longitude == Get(telem, "longitude")
      && r.value.velocidade == Get(telem, "velocidade")
      && r.value.direcao == Get(telem, "direcao")
      && r.value.servertime == Get(telem, "servertime")
    // a missing or falsy engine flag reads as False
    ensures r.Some? ==>
      r.value.motorLigado ==
        (if Truthy(Get(telem, "motor_ligado")) then Get(telem, "motor_ligado") else PyBool(false))
    // missing hours read as 0; the hours are rounded to 2 decimals
    ensures r.Some? && !Truthy(Get(telem, "horas_motor")) ==> r.value.horasMotor == 0.0
    ensures r.Some? && Truthy(Get(telem, "horas_motor")) ==>
      var h := AsNumber(Get(telem, "horas_motor")).value;
      h - HalfUnit(2) <= r.value.horasMotor <= h + HalfUnit(2)
    ensures r.Some? ==> HasDecimals(r.value.horasMotor, 2)
  {
    var horas := Or(Get(telem, "horas_motor"), PyInt(0));
    if AsNumber(horas).None? then None
    else
      RoundZero(2);
      Some(RespostaPainel(
        Get(telem, "imei"),
        Or(Get(telem, "motor_ligado"), PyBool(false)),
        Round(AsNumber(horas).value, 2),
        Get(telem, "tensao_bateria"),
        Get(telem, "latitude"),
        Get(telem, "longitude"),
        Get(telem, "velocidade"),
        Get(telem, "direcao"),
        Get(telem, "servertime")))
  }

  /** The asset columns `obter_dados` reads. */
  datatype AtivoMonitorado = AtivoMonitorado(ativo: bool, imei: Option<string>)

  /**
   * `obter_dados(ativo_id)`: `registro` is the row with that id, if any;
   * `provider` is `get_telemetria_por_imei`.
   */
  function ObterDados(registro: Option<AtivoMonitorado>, provider: string -> Result<Dict, BrasilSat.Falha>)
    : (r: Resposta<RespostaPainel>)
    // a missing or inactive asset is not found
    ensures registro.None? || !registro.value.ativo ==> r == Erro(NotFound404)
    // an active asset without IMEI is a bad request, and the provider is not asked
    ensures registro.Some? && registro.value.ativo && !BrasilSat.Preenchido(registro.value.imei)
            ==> r == Erro(BadRequest400)
    // a provider failure is a server error
    ensures registro.Some? && registro.value.ativo && BrasilSat.Preenchido(registro.value.imei)
            && provider(registro.value.imei.value).Err?
            ==> r == Erro(ServerError500)
    // otherwise the mapped telemetry
    ensures r.Sucesso? ==>
      && registro.Some? && registro.value.ativo && BrasilSat.Preenchido(registro.value.imei)
      && provider(registro.value.imei.value).Ok?
      && MontarRespostaPainel(provider(registro.value.imei.value).value) == Some(r.corpo)
    ensures registro.Some? && registro.value.ativo && BrasilSat.Preenchido(registro.value.imei)
            && provider(registro.value.imei.value).Ok?
            && MontarRespostaPainel(provider(registro.value.imei.value).value).Some?
            ==> r.Sucesso?
  {
    if registro.None? || !registro.value.ativo then Erro(NotFound404)
    else if !BrasilSat.Preenchido(registro.value.imei) then Erro(BadRequest400)
    else match provider(registro.value.imei.value)
      case Err(_) => Erro(ServerError500)
      case Ok(telem) =>
        match MontarRespostaPainel(telem)
        case None => Erro(ServerError500)
        case Some(resposta) => Sucesso(resposta)
  }

  /** Whatever the normaliser produces maps to a panel response. */
  lemma TelemetriaNormalizadaSempreMonta(t: BrasilSat.Telemetria)
    ensures MontarRespostaPainel(t.ComoDict()).Some?
  {
    t.HorasMotorNoDict();
  }
}
