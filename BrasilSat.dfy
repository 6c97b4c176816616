/**
 * The BrasilSat telemetry adapter (gerenciador_ativos/api/monitoramento/brasilsat.py):
 * the checks on the answers of the /api/authorization and /api/track calls
 * and the normalisation of a raw track record into the dictionary the rest of
 * the application reads. The HTTP calls themselves are parameters: each is
 * given as the reply it produced.
 */
module BrasilSat {
  import opened Py

  /** What a `requests.get(...)` followed by `resp.json()` produced. */
  datatype RespostaHttp =
    | FalhaDeRede        // requests.RequestException
    | CorpoNaoJson       // resp.json() raised ValueError
    | Json(corpo: PyValue)

  /** Why a lookup failed. */
  datatype Falha =
    | SemCredenciais
    | RedeIndisponivel
    | RespostaInvalida
    | AutorizacaoRecusada
    | TokenAusente
    | ImeiAusente
    | TrackRecusado
    | SemRegistros
    | ExcecaoInesperada  // AttributeError, KeyError or TypeError on an unexpected shape
  {
    /** Raised as BrasilSatError, which the routes catch. */
    predicate IsBrasilSatError() {
      !ExcecaoInesperada?
    }
  }

  /** BRASILSAT_ACCOUNT and BRASILSAT_PASSWORD as read from the environment. */
  datatype Conta = Conta(account: Option<string>, password: Option<string>)

  predicate Preenchido(o: Option<string>) {
    o.Some? && o.value != []
  }

  /**
   * The decoded body when its "code" is 0; `recusa` when it is not. A body
   * that is not a dict has no `.get`.
   */
  function CodigoOk(reply: RespostaHttp, recusa: Falha): Result<Dict, Falha> {
    match reply
    case FalhaDeRede => Err(RedeIndisponivel)
    case CorpoNaoJson => Err(RespostaInvalida)
    case Json(corpo) =>
      if !corpo.PyDict? then Err(ExcecaoInesperada)
      else if !EqualsInt(Get(corpo.m, "code"), 0) then Err(recusa)
      else Ok(corpo.m)
  }

  /** `_obter_access_token`: the token from an authorization reply. */
  function ObterAccessToken(conta: Conta, reply: RespostaHttp): (r: Result<PyValue, Falha>)
    ensures !Preenchido(conta.account) || !Preenchido(conta.password) ==> r == Err(SemCredenciais)
    ensures reply.Json? && reply.corpo.PyDict? && !EqualsInt(Get(reply.corpo.m, "code"), 0)
              && Preenchido(conta.account) && Preenchido(conta.password)
            ==> r == Err(AutorizacaoRecusada)
    ensures r.Ok? ==>
      && reply.Json? && reply.corpo.PyDict? && EqualsInt(Get(reply.corpo.m, "code"), 0)
      && Truthy(r.value)
      && var registro := Or(Get(reply.corpo.m, "record"), Get(reply.corpo.m, "data"));
         registro.PyDict? && r.value == Get(registro.m, "access_token")
    // credentials, code 0 and a truthy access_token in the record give that token
    ensures Preenchido(conta.account) && Preenchido(conta.password)
            && reply.Json? && reply.corpo.PyDict? && EqualsInt(Get(reply.corpo.m, "code"), 0) ==>
              var registro := Or(Or(Get(reply.corpo.m, "record"), Get(reply.corpo.m, "data")), PyDict(map[]));
              registro.PyDict? && Truthy(Get(registro.m, "access_token")) ==> r == Ok(Get(registro.m, "access_token"))
  {
    if !Preenchido(conta.account) || !Preenchido(conta.password) then Err(SemCredenciais)
    else match CodigoOk(reply, AutorizacaoRecusada)
      case Err(e) => Err(e)
      case Ok(data) =>
        var registro := Or(Or(Get(data, "record"), Get(data, "data")), PyDict(map[]));
        if !registro.PyDict? then Err(ExcecaoInesperada)
        else
          var token := Get(registro.m, "access_token");
          if !Truthy(token) then Err(TokenAusente) else Ok(token)
  }

  /** `records[0]` for a truthy value. */
  function Primeiro(records: PyValue): Result<PyValue, Falha>
    requires Truthy(records)
  {
    match records
    case PyList(items) => Ok(items[0])
    case PyStr(s) => Ok(PyStr([s[0]]))
    case _ => Err(ExcecaoInesperada)
  }

  /**
   * `_buscar_track_bruto(imei)`: the first track record, after a token is
   * obtained from `authReply`; `trackReply` is the answer of /api/track.
   */
  function BuscarTrackBruto(imei: string, conta: Conta, authReply: RespostaHttp, trackReply: RespostaHttp)
    : (r: Result<PyValue, Falha>)
    // no IMEI: fails before any token is requested, whatever the provider would answer
    ensures imei == [] ==> r == Err(ImeiAusente)
    // an authorization failure is passed on
    ensures imei != [] && ObterAccessToken(conta, authReply).Err? ==> r == Err(ObterAccessToken(conta, authReply).error)
    ensures r.Ok? ==> imei != [] && ObterAccessToken(conta, authReply).Ok?
    // a track answer with a code other than 0 fails
    ensures imei != [] && ObterAccessToken(conta, authReply).Ok?
            && trackReply.Json? && trackReply.corpo.PyDict? && !EqualsInt(Get(trackReply.corpo.m, "code"), 0)
            ==> r == Err(TrackRecusado)
    // an accepted answer with no records fails
    ensures imei != [] && ObterAccessToken(conta, authReply).Ok?
            && trackReply.Json? && trackReply.corpo.PyDict? && EqualsInt(Get(trackReply.corpo.m, "code"), 0)
            && !Truthy(Get(trackReply.corpo.m, "record"))
            ==> r == Err(SemRegistros)
    // otherwise the first record of the list is the result
    ensures imei != [] && ObterAccessToken(conta, authReply).Ok?
            && trackReply.Json? && trackReply.corpo.PyDict? && EqualsInt(Get(trackReply.corpo.m, "code"), 0)
            && Get(trackReply.corpo.m, "record").PyList? && Get(trackReply.corpo.m, "record").items != []
            ==> r == Ok(Get(trackReply.corpo.m, "record").items[0])
  {
    if imei == [] then Err(ImeiAusente)
    else match ObterAccessToken(conta, authReply)
      case Err(e) => Err(e)
      case Ok(_) =>
        match CodigoOk(trackReply, TrackRecusado)
        case Err(e) => Err(e)
        case Ok(data) =>
          var records := Or(Get(data, "record"), PyList([]));
          if !Truthy(records) then Err(SemRegistros) else Primeiro(records)
  }

  function OptFloat(o: Option<real>): PyValue {
    match o
    case None => PyNone
    case Some(x) => PyFloat(x)
  }

  /** The first truthy value of the keys, else None (`a or b or None`). */
  function PrimeiroVerdadeiro(record: Dict, chaves: seq<string>): (v: PyValue)
    ensures v.PyNone? || Truthy(v)
    ensures Truthy(v) ==> exists k :: 0 <= k < |chaves| && v == Get(record, chaves[k])
    ensures forall k :: 0 <= k < |chaves| && Truthy(Get(record, chaves[k])) ==> Truthy(v)
    ensures forall k :: 0 <= k < |chaves| && Truthy(Get(record, chaves[k]))
                        && (forall j :: 0 <= j < k ==> !Truthy(Get(record, chaves[j]))) ==>
              v == Get(record, chaves[k])
  {
    if chaves == [] then PyNone
    else if Truthy(Get(record, chaves[0])) then Get(record, chaves[0])
    else PrimeiroVerdadeiro(record, chaves[1..])
  }

  /** Seconds with the ignition on: a missing `acctime` is 0, an unparseable one 0.0. */
  function AcctimeSegundos(record: Dict): (s: real)
    ensures "acctime" !in record ==> s == 0.0
    ensures "acctime" in record && ToFloat(record["acctime"]).None? ==> s == 0.0
    ensures "acctime" in record && ToFloat(record["acctime"]).Some? ==> s == ToFloat(record["acctime"]).value
  {
    ToFloat(GetOr(record, "acctime", PyInt(0))).GetOr(0.0)
  }

  /** The normalised record `_normalizar_track_bruto` returns, one field per key. */
  datatype Telemetria = Telemetria(
    imei: PyValue,
    motorLigado: bool,
    acctimeS: real,
    horasMotor: real,
    tensaoBateria: Option<real>,
    servertime: PyValue,
    latitude: Option<real>,
    longitude: Option<real>,
    velocidade: Option<real>,
    direcao: PyValue,
    raw: Dict)
  {
    /** The dictionary under the keys the callers read. */
    function ComoDict(): Dict {
      map[
        "imei" := imei,
        "motor_ligado" := PyBool(motorLigado),
        "acctime_s" := PyFloat(acctimeS),
        "horas_motor" := PyFloat(horasMotor),
        "tensao_bateria" := OptFloat(tensaoBateria),
        "servertime" := servertime,
        "latitude" := OptFloat(latitude),
        "longitude" := OptFloat(longitude),
        "velocidade" := OptFloat(velocidade),
        "direcao" := direcao,
        "raw" := PyDict(raw)
      ]
    }

    /** The dictionary carries the engine hours as a float. */
    lemma HorasMotorNoDict()
      ensures Get(ComoDict(), "horas_motor") == PyFloat(horasMotor)
    {
    }
  }

  /** `_normalizar_track_bruto(record)`. */
  function NormalizarTrackBruto(record: Dict): (t: Telemetria)
    ensures t.imei == Get(record, "imei")
    // the engine is on exactly when accstatus == 1
    ensures t.motorLigado <==> EqualsInt(Get(record, "accstatus"), 1)
    // hours are the ignition seconds over 3600
    ensures t.acctimeS == AcctimeSegundos(record) && t.horasMotor * 3600.0 == t.acctimeS
    // no voltage, or an unparseable one, is None and not 0
    ensures t.tensaoBateria == FloatOuNone(Get(record, "externalpower"))
    ensures Get(record, "externalpower").PyNone? ==> t.tensaoBateria.None?
    ensures t.servertime == Get(record, "servertime")
    ensures t.latitude == FloatOuNone(PrimeiroVerdadeiro(record, ["latitude", "lat"]))
    ensures t.longitude == FloatOuNone(PrimeiroVerdadeiro(record, ["longitude", "lng", "lon"]))
    ensures t.velocidade == FloatOuNone(PrimeiroVerdadeiro(record, ["speed", "gps_speed"]))
    ensures t.direcao == PrimeiroVerdadeiro(record, ["course", "direction"])
    // the original record is kept unchanged
    ensures t.raw == record
  {
    var acctime := AcctimeSegundos(record);
    Telemetria(
      Get(record, "imei"),
      EqualsInt(Get(record, "accstatus"), 1),
      acctime,
      acctime / 3600.0,
      FloatOuNone(Get(record, "externalpower")),
      Get(record, "servertime"),
      FloatOuNone(PrimeiroVerdadeiro(record, ["latitude", "lat"])),
      FloatOuNone(PrimeiroVerdadeiro(record, ["longitude", "lng", "lon"])),
      FloatOuNone(PrimeiroVerdadeiro(record, ["speed", "gps_speed"])),
      PrimeiroVerdadeiro(record, ["course", "direction"]),
      record)
  }

  /** `get_telemetria_por_imei(imei)`: the track record, normalised. */
  function GetTelemetriaPorImei(imei: string, conta: Conta, authReply: RespostaHttp, trackReply: RespostaHttp)
    : (r: Result<Dict, Falha>)
    ensures r.Ok? <==> BuscarTrackBruto(imei, conta, authReply, trackReply).Ok?
                       && BuscarTrackBruto(imei, conta, authReply, trackReply).value.PyDict?
    ensures r.Ok? ==> r.value == NormalizarTrackBruto(BuscarTrackBruto(imei, conta, authReply, trackReply).value.m).ComoDict()
  {
    match BuscarTrackBruto(imei, conta, authReply, trackReply)
    case Err(e) => Err(e)
    case Ok(bruto) =>
      if bruto.PyDict? then Ok(NormalizarTrackBruto(bruto.m).ComoDict()) else Err(ExcecaoInesperada)
  }

  /** The latitude lookup: "latitude" wins over "lat" when both are truthy. */
  lemma LatitudePrefereChaveLonga(record: Dict)
    requires Truthy(Get(record, "latitude"))
    ensures NormalizarTrackBruto(record).latitude == FloatOuNone(record["latitude"])
  {
  }

  /** A truthy "lat" is used only when "latitude" is absent or falsy. */
  lemma LatitudeAlternativa(record: Dict)
    requires !Truthy(Get(record, "latitude")) && Truthy(Get(record, "lat"))
    ensures NormalizarTrackBruto(record).latitude == FloatOuNone(record["lat"])
  {
    var chaves := ["latitude", "lat"];
    assert chaves[1..] == ["lat"];
    assert PrimeiroVerdadeiro(record, chaves) == PrimeiroVerdadeiro(record, ["lat"]);
  }

  /** accstatus equal to 1 in Python's sense (1, 1.0 or True) turns the engine on, anything else off. */
  lemma MotorLigadoCasos(record: Dict)
    ensures NormalizarTrackBruto(record).motorLigado <==>
      Get(record, "accstatus") in {PyInt(1), PyFloat(1.0), PyBool(true)}
  {
  }
}
