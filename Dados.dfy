/**
 * The asset panel endpoint GET /api/ativos/<id>/dados
 * (gerenciador_ativos/api/ativos/dados.py): the call to the external
 * telemetry API with its defaults and its catch-all fallback, and the
 * composition of the engine hours shown on the panel.
 *
 * The environment (BRASILSAT_BASE_URL, BRASILSAT_TOKEN), the reply of the
 * HTTP call and the current time (`agora`, whole seconds since the epoch)
 * are parameters. Timestamps are whole seconds.
 */
module Dados {
  import opened Py
  import opened Http
  import BrasilSat
  import Models

  // ---------------------------------------------------------------------
  // Configuration
  // ---------------------------------------------------------------------

  /** `s.rstrip("/")` */
  function SemBarraFinal(s: string): (r: string)
    ensures r <= s
    ensures r == [] || r[|r| - 1] != '/'
    ensures forall i :: |r| <= i < |s| ==> s[i] == '/'
  {
    if s != [] && s[|s| - 1] == '/' then SemBarraFinal(s[..|s| - 1]) else s
  }

  /**
   * The module-level configuration: the base URL without its trailing
   * slashes and the token, each "" when the variable is unset.
   */
  datatype Config = Config(baseUrl: string, token: string)

  function LerConfig(baseUrlEnv: string, tokenEnv: string): Config {
    Config(SemBarraFinal(baseUrlEnv), tokenEnv)
  }

  /** A base URL made of slashes only counts as unset. */
  lemma {:induction false} SoBarrasDesabilita(baseUrlEnv: string, tokenEnv: string)
    ensures LerConfig(baseUrlEnv, tokenEnv).baseUrl == []
            <==> forall i :: 0 <= i < |baseUrlEnv| ==> baseUrlEnv[i] == '/'
  {
    if baseUrlEnv != [] && baseUrlEnv[|baseUrlEnv| - 1] == '/' {
      var prefixo := baseUrlEnv[..|baseUrlEnv| - 1];
      SoBarrasDesabilita(prefixo, tokenEnv);
      assert forall i :: 0 <= i < |prefixo| ==> prefixo[i] == baseUrlEnv[i];
    }
  }

  /** The external call is made only with an IMEI, a base URL and a token. */
  predicate Habilitada(imei: Option<string>, c: Config) {
    BrasilSat.Preenchido(imei) && c.baseUrl != [] && c.token != []
  }

  // ---------------------------------------------------------------------
  // fetch_telemetria_externa
  // ---------------------------------------------------------------------

  /** The six keys the panel reads. */
  datatype TelemetriaExterna = TelemetriaExterna(
    imei: string,
    motorLigado: bool,
    tensaoBateria: real,
    servertime: int,
    latitude: real,
    longitude: real)

  /** The safe defaults: engine off, zero voltage and position, the current time. */
  function Padrao(imei: string, agora: int): TelemetriaExterna {
    TelemetriaExterna(imei, false, 0.0, agora, 0.0, 0.0)
  }

  /**
   * The mapping of the decoded body `data = resp.json() or {}`; None stands
   * for an exception (a body that has no `.get`, a value float() or int()
   * refuses). The default of "servertime" is the current time as a float,
   * which int() truncates to `agora`.
   */
  function Mapear(imei: string, corpo: PyValue, agora: int): (r: Option<TelemetriaExterna>)
    ensures !Truthy(corpo) ==> r == Some(Padrao(imei, agora))
    ensures Truthy(corpo) && !corpo.PyDict? ==> r == None
    ensures r.Some? ==> r.value.imei == imei
    ensures r.Some? && r.value.motorLigado ==>
              corpo.PyDict? && Truthy(GetOr(corpo.m, "motor_ligado", PyBool(false)))
    ensures corpo.PyDict? && Truthy(corpo) ==>
              (r.Some? <==>
                 ToFloat(GetOr(corpo.m, "tensao_bateria", PyFloat(0.0))).Some?
                 && ToInt(GetOr(corpo.m, "servertime", PyInt(agora))).Some?
                 && ToFloat(GetOr(corpo.m, "latitude", PyFloat(0.0))).Some?
                 && ToFloat(GetOr(corpo.m, "longitude", PyFloat(0.0))).Some?)
    // each field is the converted value the body sends, or the converted default
    ensures corpo.PyDict? && Truthy(corpo) && r.Some? ==>
              && (r.value.motorLigado <==> Truthy(GetOr(corpo.m, "motor_ligado", PyBool(false))))
              && Some(r.value.tensaoBateria) == ToFloat(GetOr(corpo.m, "tensao_bateria", PyFloat(0.0)))
              && Some(r.value.servertime) == ToInt(GetOr(corpo.m, "servertime", PyInt(agora)))
              && Some(r.value.latitude) == ToFloat(GetOr(corpo.m, "latitude", PyFloat(0.0)))
              && Some(r.value.longitude) == ToFloat(GetOr(corpo.m, "longitude", PyFloat(0.0)))
  {
    var data := if Truthy(corpo) then corpo else PyDict(map[]);
    if !data.PyDict? then None
    else
      var d := data.m;
      var tensao := ToFloat(GetOr(d, "tensao_bateria", PyFloat(0.0)));
      var servertime := ToInt(GetOr(d, "servertime", PyInt(agora)));
      var lat := ToFloat(GetOr(d, "latitude", PyFloat(0.0)));
      var lon := ToFloat(GetOr(d, "longitude", PyFloat(0.0)));
      if tensao.None? || servertime.None? || lat.None? || lon.None? then None
      else Some(TelemetriaExterna(
        imei,
        Truthy(GetOr(d, "motor_ligado", PyBool(false))),
        tensao.value,
        servertime.value,
        lat.value,
        lon.value))
  }

  /**
   * `fetch_telemetria_externa(ativo)`: never raises. Without an IMEI or
   * without configuration it returns the defaults under `imei or "N/A"`;
   * any failure of the call or of the mapping returns the defaults under
   * the IMEI.
   */
  function FetchTelemetriaExterna(imei: Option<string>, c: Config, reply: BrasilSat.RespostaHttp, agora: int)
    : (t: TelemetriaExterna)
    ensures !Habilitada(imei, c) ==>
              t == Padrao(if BrasilSat.Preenchido(imei) then imei.value else "N/A", agora)
    ensures Habilitada(imei, c) ==> t.imei == imei.value
    ensures Habilitada(imei, c) && !reply.Json? ==> t == Padrao(imei.value, agora)
    ensures Habilitada(imei, c) && reply.Json? && Mapear(imei.value, reply.corpo, agora).None? ==>
              t == Padrao(imei.value, agora)
    ensures Habilitada(imei, c) && reply.Json? && Mapear(imei.value, reply.corpo, agora).Some? ==>
              t == Mapear(imei.value, reply.corpo, agora).value
  {
    if !Habilitada(imei, c) then
      Padrao(if BrasilSat.Preenchido(imei) then imei.value else "N/A", agora)
    else
      match reply
      case Json(corpo) => Mapear(imei.value, corpo, agora).GetOr(Padrao(imei.value, agora))
      case _ => Padrao(imei.value, agora)
  }

  /**
   * The engine is reported on only when the call was made and its body, a
   * dictionary, says so.
   */
  lemma MotorLigadoSoPelaApi(imei: Option<string>, c: Config, reply: BrasilSat.RespostaHttp, agora: int)
    ensures FetchTelemetriaExterna(imei, c, reply, agora).motorLigado ==>
              Habilitada(imei, c) && reply.Json? && reply.corpo.PyDict?
              && Truthy(GetOr(reply.corpo.m, "motor_ligado", PyBool(false)))
  {
    if Habilitada(imei, c) && reply.Json? {
      var m := Mapear(imei.value, reply.corpo, agora);
      if m.None? {
        assert FetchTelemetriaExterna(imei, c, reply, agora) == Padrao(imei.value, agora);
      }
    }
  }

  /** An empty body (`None`, `{}`, `[]`, "" …) yields exactly the defaults. */
  lemma CorpoVazioDaPadrao(imei: Option<string>, c: Config, corpo: PyValue, agora: int)
    requires Habilitada(imei, c) && !Truthy(corpo)
    ensures FetchTelemetriaExterna(imei, c, BrasilSat.Json(corpo), agora) == Padrao(imei.value, agora)
  {
  }

  // ---------------------------------------------------------------------
  // dados_ativo
  // ---------------------------------------------------------------------

  /**
   * The columns of the asset the endpoint reads (`None` for NULL). The
   * asset class is the one of gerenciador_ativos/models.py, where
   * `horas_paradas` is a method computed from `timestamp_desligado`.
   */
  datatype AtivoPainel = AtivoPainel(
    id: int,
    nome: string,
    imei: Option<string>,
    horasSistemaTotal: Option<real>,
    timestampLigado: Option<int>,
    timestampDesligado: Option<int>)

  /** The JSON body of the endpoint. */
  datatype PainelDados = PainelDados(
    id: int,
    nome: string,
    imei: string,
    monitorOnline: bool,
    motorLigado: bool,
    tensaoBateria: real,
    servertime: int,
    latitude: real,
    longitude: real,
    horasMotor: real,
    horasParadas: real)

  /**
   * The engine hours: the accumulated total plus, while the engine is on
   * and an ignition time is stored, the hours of the running cycle, never
   * negative.
   */
  function HorasMotor(total: Option<real>, timestampLigado: Option<int>, ligado: bool, agora: int): (h: real)
    ensures h >= OrZero(total)
    ensures !ligado || timestampLigado.None? ==> h == OrZero(total)
    ensures ligado && timestampLigado.Some? && timestampLigado.value <= agora ==>
              (h - OrZero(total)) * 3600.0 == (agora - timestampLigado.value) as real
    ensures ligado && timestampLigado.Some? && timestampLigado.value > agora ==> h == OrZero(total)
  {
    if ligado && timestampLigado.Some? then
      var ciclo := (agora - timestampLigado.value) as real / 3600.0;
      OrZero(total) + (if ciclo > 0.0 then ciclo else 0.0)
    else
      OrZero(total)
  }

  /** The response body built from the asset, the telemetry and the two hour values. */
  function Montar(a: AtivoPainel, t: TelemetriaExterna, horasMotor: real, horasParadas: real): PainelDados {
    PainelDados(
      a.id, a.nome, t.imei, true, t.motorLigado, t.tensaoBateria, t.servertime,
      t.latitude, t.longitude, Round(horasMotor, 2), Round(horasParadas, 2))
  }

  /**
   * `dados_ativo(id)` as written. Two steps raise TypeError, so every
   * existing asset gets 500:
   * - with the engine reported on and an ignition time stored,
   *   `agora_ts - timestamp_ligado` subtracts a DateTime from a float;
   * - otherwise `getattr(ativo, "horas_paradas", 0)` finds the method of
   *   the asset class, a truthy value that `or 0` keeps, and `round()` of a
   *   method raises.
   */
  function DadosAtivoComoEscrito(ativo: Option<AtivoPainel>, c: Config, reply: BrasilSat.RespostaHttp, agora: int)
    : (r: Resposta<PainelDados>)
    ensures ativo.None? <==> r == Erro(NotFound404)
    ensures ativo.Some? ==> r == Erro(ServerError500)
  {
    if ativo.None? then Erro(NotFound404)
    else
      var a := ativo.value;
      var t := FetchTelemetriaExterna(a.imei, c, reply, agora);
      if t.motorLigado && a.timestampLigado.Some? then Erro(ServerError500)
      else
        // `horas_motor = horas_sistema_total`; then `round()` of the bound method
        Erro(ServerError500)
  }

  /** A running engine with a stored ignition time: the written endpoint fails, the corrected one answers. */
  lemma MotorLigadoQuebraPainelExemplo()
    ensures DadosAtivoComoEscrito(
              Some(AtivoPainel(1, "Lancha", Some("123"), Some(10.0), Some(1000), None)),
              Config("http://api", "t"),
              BrasilSat.Json(PyDict(map["motor_ligado" := PyBool(true)])),
              4600)
            == Erro(ServerError500)
    ensures DadosAtivo(
              Some(AtivoPainel(1, "Lancha", Some("123"), Some(10.0), Some(1000), None)),
              Config("http://api", "t"),
              BrasilSat.Json(PyDict(map["motor_ligado" := PyBool(true)])),
              4600).corpo.horasMotor
            == 11.0
  {
    var t := FetchTelemetriaExterna(Some("123"), Config("http://api", "t"),
                                    BrasilSat.Json(PyDict(map["motor_ligado" := PyBool(true)])), 4600);
    assert Truthy(GetOr(map["motor_ligado" := PyBool(true)], "motor_ligado", PyBool(false)));
    assert t.motorLigado;
    assert Shift(11.0, 2) == 1100.0;
    RoundExact(11.0, 2);
  }

  /**
   * An asset switched off two hours ago, engine reported off: the written
   * endpoint fails on `round()` of the method, the corrected one shows the
   * two idle hours.
   */
  lemma MotorDesligadoQuebraPainelExemplo()
    ensures DadosAtivoComoEscrito(
              Some(AtivoPainel(2, "Jet", Some("456"), Some(5.0), None, Some(1000))),
              Config("http://api", "t"),
              BrasilSat.Json(PyDict(map["motor_ligado" := PyBool(false)])),
              8200)
            == Erro(ServerError500)
    ensures DadosAtivo(
              Some(AtivoPainel(2, "Jet", Some("456"), Some(5.0), None, Some(1000))),
              Config("http://api", "t"),
              BrasilSat.Json(PyDict(map["motor_ligado" := PyBool(false)])),
              8200).corpo.horasParadas
            == 2.0
  {
    assert Models.HorasParadasDesde(Some(1000), 8200) == 2.0;
    assert Shift(2.0, 2) == 200.0;
    RoundExact(2.0, 2);
  }

  /**
   * `dados_ativo(id)` corrected: the ignition time taken in seconds and
   * the idle hours from `horas_paradas()` of gerenciador_ativos/models.py.
   * 404 for an unknown asset, otherwise the panel with the running cycle
   * added to the stored total, both hour values rounded to two decimals.
   */
  function DadosAtivo(ativo: Option<AtivoPainel>, c: Config, reply: BrasilSat.RespostaHttp, agora: int)
    : (r: Resposta<PainelDados>)
    ensures ativo.None? <==> r == Erro(NotFound404)
    ensures ativo.Some? ==> r.Sucesso?
    ensures r.Sucesso? ==>
              var a := ativo.value;
              var t := FetchTelemetriaExterna(a.imei, c, reply, agora);
              && r.corpo.id == a.id && r.corpo.nome == a.nome && r.corpo.monitorOnline
              && r.corpo.imei == t.imei && r.corpo.motorLigado == t.motorLigado
              && r.corpo.tensaoBateria == t.tensaoBateria && r.corpo.servertime == t.servertime
              && r.corpo.latitude == t.latitude && r.corpo.longitude == t.longitude
              && r.corpo.horasMotor == Round(HorasMotor(a.horasSistemaTotal, a.timestampLigado, t.motorLigado, agora), 2)
              && r.corpo.horasParadas == Round(Models.HorasParadasDesde(a.timestampDesligado, agora), 2)
  {
    if ativo.None? then Erro(NotFound404)
    else
      var a := ativo.value;
      var t := FetchTelemetriaExterna(a.imei, c, reply, agora);
      Sucesso(Montar(a, t, HorasMotor(a.horasSistemaTotal, a.timestampLigado, t.motorLigado, agora),
                     Models.HorasParadasDesde(a.timestampDesligado, agora)))
  }

  /** The panel never shows fewer engine hours than the stored total. */
  lemma HorasNuncaAbaixoDoTotal(a: AtivoPainel, c: Config, reply: BrasilSat.RespostaHttp, agora: int)
    ensures DadosAtivo(Some(a), c, reply, agora).corpo.horasMotor >= Round(OrZero(a.horasSistemaTotal), 2)
    ensures HasDecimals(DadosAtivo(Some(a), c, reply, agora).corpo.horasMotor, 2)
  {
    var t := FetchTelemetriaExterna(a.imei, c, reply, agora);
    RoundMonotone(OrZero(a.horasSistemaTotal), HorasMotor(a.horasSistemaTotal, a.timestampLigado, t.motorLigado, agora), 2);
  }

  /**
   * Where the written code gets past the engine-hours step (the engine is
   * not reported on, or no ignition time is stored), the corrected panel
   * shows the engine hours that step computed: the stored total, rounded.
   */
  lemma CorrecaoPreservaHorasMotor(a: AtivoPainel, c: Config, reply: BrasilSat.RespostaHttp, agora: int)
    requires !(FetchTelemetriaExterna(a.imei, c, reply, agora).motorLigado && a.timestampLigado.Some?)
    ensures DadosAtivo(Some(a), c, reply, agora).corpo.horasMotor == Round(OrZero(a.horasSistemaTotal), 2)
  {
  }
}
