/**
 * The asset data endpoint of gerenciador_ativos/api/ativos/routes_dados.py:
 * it reads the tracker through the provider, derives the engine flag, counts
 * an ignition on a 0->1 edge against the last stored state, composes the
 * hours from the offset and the provider's hours, and writes the new values
 * back to the asset row.
 */
module RoutesDados {
  import opened Py
  import opened Http
  import BrasilSat

  // ---------------------------------------------------------------------
  // The engine flag
  // ---------------------------------------------------------------------

  /**
   * `str(motor_raw) in ["1", "true", "True"]`. The text of a float, list or
   * dict always holds '.', 'e', 'inf', 'nan', '[' or '{', so it never matches.
   */
  predicate MotorLigado(raw: PyValue) {
    match raw
    case PyFloat(_) => false
    case PyList(_) => false
    case PyDict(_) => false
    case _ => StrOf(raw).value in {"1", "true", "True"}
  }

  /** Exactly the int 1, True and the three strings count as "on". */
  lemma MotorLigadoCasos(raw: PyValue)
    ensures MotorLigado(raw) <==>
      raw in {PyInt(1), PyBool(true), PyStr("1"), PyStr("true"), PyStr("True")}
  {
    if raw.PyInt? {
      var s := IntToString(raw.i);
      IntToStringIsOne(raw.i);
      assert s[0] == '-' || IsDigit(s[0]);
      assert s != "true" && s != "True";
    }
  }

  // ---------------------------------------------------------------------
  // Ignition counting against the stored state
  // ---------------------------------------------------------------------

  /** The two columns the ignition logic reads and writes. */
  datatype Contagem = Contagem(ultimoEstado: Option<int>, totalIgnicoes: Option<int>)

  function MotorAtual(ligado: bool): int {
    if ligado then 1 else 0
  }

  /** The state after one reading, as the handler computes it. */
  function Contar(c: Contagem, ligado: bool): (r: Contagem)
    // a missing previous state is taken as the current one: no ignition
    ensures c.ultimoEstado.None? ==> r.totalIgnicoes == Some(c.totalIgnicoes.GetOr(0))
    // one more ignition exactly on a stored 0 followed by "on"
    ensures r.totalIgnicoes == Some(c.totalIgnicoes.GetOr(0) +
              (if c.ultimoEstado == Some(0) && ligado then 1 else 0))
    // the state is written only when a stored state differs from the current one
    ensures r.ultimoEstado ==
      (if c.ultimoEstado.Some? && c.ultimoEstado.value != MotorAtual(ligado)
       then Some(MotorAtual(ligado)) else c.ultimoEstado)
    ensures c.ultimoEstado.None? ==> r.ultimoEstado.None?
  {
    var motorAtual := MotorAtual(ligado);
    var anterior := if c.ultimoEstado.None? then motorAtual else c.ultimoEstado.value;
    var mudou := anterior == 0 && motorAtual == 1;
    var ignicoes := c.totalIgnicoes.GetOr(0) + (if mudou then 1 else 0);
    var ultimo := if mudou || anterior != motorAtual then Some(motorAtual) else c.ultimoEstado;
    Contagem(ultimo, Some(ignicoes))
  }

  /** The state after a run of readings. */
  function ContarTodas(c: Contagem, flags: seq<bool>): Contagem
    decreases |flags|
  {
    if flags == [] then c else ContarTodas(Contar(c, flags[0]), flags[1..])
  }

  /** Number of off->on edges, the first reading compared with `anterior`. */
  function Subidas(anterior: Option<int>, flags: seq<bool>): nat
    decreases |flags|
  {
    if flags == [] then 0
    else (if anterior == Some(0) && flags[0] then 1 else 0) + Subidas(Some(MotorAtual(flags[0])), flags[1..])
  }

  /**
   * As written, an asset whose state was never stored keeps it unset for
   * ever and never counts an ignition, whatever the readings.
   */
  lemma {:induction false} SemEstadoNuncaConta(c: Contagem, flags: seq<bool>)
    requires c.ultimoEstado.None?
    ensures ContarTodas(c, flags).ultimoEstado.None?
    ensures ContarTodas(c, flags).totalIgnicoes.GetOr(0) == c.totalIgnicoes.GetOr(0)
    decreases |flags|
  {
    if flags != [] {
      SemEstadoNuncaConta(Contar(c, flags[0]), flags[1..]);
    }
  }

  /** A new asset that reads off, then on: one edge, no ignition counted. */
  lemma PrimeiraIgnicaoPerdida()
    ensures Subidas(None, [false, true]) == 1
    ensures ContarTodas(Contagem(None, None), [false, true]).totalIgnicoes == Some(0)
  {
    SemEstadoNuncaConta(Contagem(None, None), [false, true]);
  }

  /** The intended step: the first reading is stored as the baseline. */
  function ContarCorrigido(c: Contagem, ligado: bool): (r: Contagem)
    ensures r.ultimoEstado == Some(MotorAtual(ligado))
    ensures r.totalIgnicoes == Some(c.totalIgnicoes.GetOr(0) +
              (if c.ultimoEstado == Some(0) && ligado then 1 else 0))
  {
    var motorAtual := MotorAtual(ligado);
    var anterior := if c.ultimoEstado.None? then motorAtual else c.ultimoEstado.value;
    var mudou := anterior == 0 && motorAtual == 1;
    Contagem(Some(motorAtual), Some(c.totalIgnicoes.GetOr(0) + (if mudou then 1 else 0)))
  }

  function ContarTodasCorrigido(c: Contagem, flags: seq<bool>): Contagem
    decreases |flags|
  {
    if flags == [] then c else ContarTodasCorrigido(ContarCorrigido(c, flags[0]), flags[1..])
  }

  /**
   * With the baseline stored, every off->on edge after the first reading is
   * counted exactly once, and the last reading is remembered.
   */
  lemma {:induction false} ContarTodasCorrigidoContaSubidas(c: Contagem, flags: seq<bool>)
    ensures ContarTodasCorrigido(c, flags).totalIgnicoes.GetOr(0) ==
            c.totalIgnicoes.GetOr(0) + Subidas(c.ultimoEstado, flags)
    ensures flags != [] ==>
            ContarTodasCorrigido(c, flags).ultimoEstado == Some(MotorAtual(flags[|flags| - 1]))
    decreases |flags|
  {
    if flags != [] {
      var rest := flags[1..];
      ContarTodasCorrigidoContaSubidas(ContarCorrigido(c, flags[0]), rest);
      if rest != [] {
        assert rest[|rest| - 1] == flags[|flags| - 1];
      }
    }
  }

  // ---------------------------------------------------------------------
  // The handler
  // ---------------------------------------------------------------------

  /** The asset columns the handler reads or writes. */
  datatype Registro = Registro(
    id: int,
    nome: string,
    categoria: Option<string>,
    imei: Option<string>,
    ultimoEstadoMotor: Option<int>,
    totalIgnicoes: Option<int>,
    horasOffset: Option<real>,
    horasParadas: Option<real>,
    horasSistema: Option<real>,
    ultimaAtualizacao: PyValue,
    latitude: PyValue,
    longitude: PyValue,
    tensaoBateria: PyValue)

  /** The JSON body of a successful answer. */
  datatype Payload = Payload(
    ativoId: int,
    nome: string,
    categoria: Option<string>,
    imei: string,
    motorLigado: bool,
    tensaoBateria: PyValue,
    servertime: PyValue,
    horasMotor: PyValue,
    offset: real,
    horasEmbarcacao: real,
    horasParadas: real,
    latitude: PyValue,
    longitude: PyValue,
    velocidade: PyValue,
    direcao: PyValue,
    ignicoes: int,
    unidadeBase: string)

  /** `ativo.categoria or "h"` */
  function UnidadeBase(categoria: Option<string>): (u: string)
    ensures categoria.Some? && categoria.value != [] ==> u == categoria.value
    ensures categoria.None? || categoria.value == [] ==> u == "h"
  {
    if categoria.Some? && categoria.value != [] then categoria.value else "h"
  }

  /**
   * What a successful answer promises about the row before (`reg`), the
   * telemetry read (`tele`), the row after (`novo`) and the payload (`p`).
   */
  predicate Consistente(reg: Registro, tele: Dict, novo: Registro, p: Payload) {
    && reg.imei.Some? && p.imei == reg.imei.value
    && p.motorLigado == MotorLigado(Get(tele, "motor_ligado"))
    // the stored counter is the reported one, grown by one exactly on a stored 0 then "on"
    && novo.totalIgnicoes == Some(p.ignicoes)
    && p.ignicoes == reg.totalIgnicoes.GetOr(0) +
         (if reg.ultimoEstadoMotor == Some(0) && p.motorLigado then 1 else 0)
    && Contagem(novo.ultimoEstadoMotor, novo.totalIgnicoes) ==
         Contar(Contagem(reg.ultimoEstadoMotor, reg.totalIgnicoes), p.motorLigado)
    // hours: offset plus the provider's hours; the offset is never written
    && p.offset == OrZero(reg.horasOffset)
    && AsNumber(p.horasMotor).Some?
    && p.horasEmbarcacao == p.offset + AsNumber(p.horasMotor).value
    && novo.horasOffset == reg.horasOffset
    && novo.horasSistema == Some(AsNumber(p.horasMotor).value)
    // idle time: 0 with the engine on, otherwise the stored value unchanged
    && p.horasParadas == (if p.motorLigado then 0.0 else OrZero(reg.horasParadas))
    && novo.horasParadas == Some(p.horasParadas)
    && p.unidadeBase == UnidadeBase(reg.categoria)
    && novo.tensaoBateria == p.tensaoBateria == Get(tele, "tensao_bateria")
    && novo.latitude == p.latitude == Get(tele, "latitude")
    && novo.longitude == p.longitude == Get(tele, "longitude")
    && novo.ultimaAtualizacao == p.servertime == Get(tele, "servertime")
    // identity, name, category and IMEI are untouched
    && novo.(ultimoEstadoMotor := reg.ultimoEstadoMotor, totalIgnicoes := reg.totalIgnicoes,
             horasParadas := reg.horasParadas, horasSistema := reg.horasSistema,
             ultimaAtualizacao := reg.ultimaAtualizacao, latitude := reg.latitude,
             longitude := reg.longitude, tensaoBateria := reg.tensaoBateria) == reg
  }

  /**
   * `dados_do_ativo` for an existing asset row: the row afterwards and the
   * answer. `provider` is `get_telemetria_por_imei`.
   */
  function Processar(reg: Registro, provider: string -> Result<Dict, BrasilSat.Falha>)
    : (r: (Registro, Resposta<Payload>))
    ensures !BrasilSat.Preenchido(reg.imei) ==> r.1 == Erro(BadRequest400)
    ensures BrasilSat.Preenchido(reg.imei) && provider(reg.imei.value).Err? ==> r.1 == Erro(ServerError500)
    // no field is written on an error
    ensures r.1.Erro? ==> r.0 == reg
    // success exactly when there is an IMEI, telemetry and numeric (or missing) hours
    ensures r.1.Sucesso? <==>
      && BrasilSat.Preenchido(reg.imei) && provider(reg.imei.value).Ok?
      && AsNumber(HorasMotor(provider(reg.imei.value).value)).Some?
    ensures r.1.Sucesso? ==> Consistente(reg, provider(reg.imei.value).value, r.0, r.1.corpo)
  {
    if !BrasilSat.Preenchido(reg.imei) then (reg, Erro(BadRequest400))
    else match provider(reg.imei.value)
      case Err(_) => (reg, Erro(ServerError500))
      case Ok(tele) => AplicarTelemetria(reg, tele)
  }

  /** The hours the provider reports, `tele.get("horas_motor") or 0`. */
  function HorasMotor(tele: Dict): PyValue {
    Or(Get(tele, "horas_motor"), PyInt(0))
  }

  /** The handler from the telemetry `tele` on, for a row with an IMEI. */
  function AplicarTelemetria(reg: Registro, tele: Dict): (Registro, Resposta<Payload>)
    requires BrasilSat.Preenchido(reg.imei)
  {
    // `offset + horas_motor` raises TypeError for a non-number: an unhandled 500
    if AsNumber(HorasMotor(tele)).None? then (reg, Erro(ServerError500))
    else (NovoRegistro(reg, tele), Sucesso(NovoPayload(reg, tele)))
  }

  /** The row after the handler assigned its columns. */
  function NovoRegistro(reg: Registro, tele: Dict): Registro
    requires AsNumber(HorasMotor(tele)).Some?
  {
    var ligado := MotorLigado(Get(tele, "motor_ligado"));
    var contagem := Contar(Contagem(reg.ultimoEstadoMotor, reg.totalIgnicoes), ligado);
    reg.(
      horasSistema := Some(AsNumber(HorasMotor(tele)).value),
      ultimaAtualizacao := Get(tele, "servertime"),
      ultimoEstadoMotor := contagem.ultimoEstado,
      horasParadas := Some(if ligado then 0.0 else OrZero(reg.horasParadas)),
      latitude := Get(tele, "latitude"),
      longitude := Get(tele, "longitude"),
      tensaoBateria := Get(tele, "tensao_bateria"),
      totalIgnicoes := contagem.totalIgnicoes)
  }

  /** The JSON body the handler answers with. */
  function NovoPayload(reg: Registro, tele: Dict): Payload
    requires BrasilSat.Preenchido(reg.imei)
    requires AsNumber(HorasMotor(tele)).Some?
  {
    var ligado := MotorLigado(Get(tele, "motor_ligado"));
    var contagem := Contar(Contagem(reg.ultimoEstadoMotor, reg.totalIgnicoes), ligado);
    var offset := OrZero(reg.horasOffset);
    Payload(
      reg.id, reg.nome, reg.categoria, reg.imei.value,
      ligado, Get(tele, "tensao_bateria"), Get(tele, "servertime"),
      HorasMotor(tele), offset, offset + AsNumber(HorasMotor(tele)).value,
      if ligado then 0.0 else OrZero(reg.horasParadas),
      Get(tele, "latitude"), Get(tele, "longitude"),
      Get(tele, "velocidade"), Get(tele, "direcao"),
      contagem.totalIgnicoes.value, UnidadeBase(reg.categoria))
  }

  /** The asset row, whose columns the handler assigns in place. */
  class AtivoDados {
    var id: int
    var nome: string
    var categoria: Option<string>
    var imei: Option<string>
    var ultimoEstadoMotor: Option<int>
    var totalIgnicoes: Option<int>
    var horasOffset: Option<real>
    var horasParadas: Option<real>
    var horasSistema: Option<real>
    var ultimaAtualizacao: PyValue
    var latitude: PyValue
    var longitude: PyValue
    var tensaoBateria: PyValue

    function Estado(): Registro
      reads this
    {
      Registro(id, nome, categoria, imei, ultimoEstadoMotor, totalIgnicoes, horasOffset,
               horasParadas, horasSistema, ultimaAtualizacao, latitude, longitude, tensaoBateria)
    }

    constructor (r: Registro)
      ensures Estado() == r
    {
      id, nome, categoria, imei := r.id, r.nome, r.categoria, r.imei;
      ultimoEstadoMotor, totalIgnicoes := r.ultimoEstadoMotor, r.totalIgnicoes;
      horasOffset, horasParadas, horasSistema := r.horasOffset, r.horasParadas, r.horasSistema;
      ultimaAtualizacao, latitude, longitude, tensaoBateria :=
        r.ultimaAtualizacao, r.latitude, r.longitude, r.tensaoBateria;
    }

    /** The save block of the handler, but for the engine state. */
    method Salvar(
      horasMotor: real, servertime: PyValue,
      novasHorasParadas: real, lat: PyValue, lon: PyValue, tensao: PyValue, ignicoes: int)
      modifies this
      ensures Estado() == old(Estado()).(
        horasSistema := Some(horasMotor),
        ultimaAtualizacao := servertime,
        horasParadas := Some(novasHorasParadas),
        latitude := lat,
        longitude := lon,
        tensaoBateria := tensao,
        totalIgnicoes := Some(ignicoes))
    {
      horasSistema := Some(horasMotor);
      ultimaAtualizacao := servertime;
      horasParadas := Some(novasHorasParadas);
      latitude := lat;
      longitude := lon;
      tensaoBateria := tensao;
      totalIgnicoes := Some(ignicoes);
    }
  }

  /**
   * `dados_do_ativo(ativo_id)`, where `ativo` is the row the id finds (null
   * when there is none).
   */
  method DadosDoAtivo(ativo: AtivoDados?, provider: string -> Result<Dict, BrasilSat.Falha>)
    returns (resposta: Resposta<Payload>)
    modifies ativo
    ensures ativo == null ==> resposta == Erro(NotFound404)
    ensures ativo != null ==> (ativo.Estado(), resposta) == Processar(old(ativo.Estado()), provider)
  {
    if ativo == null {
      return Erro(NotFound404);
    }
    var imei := ativo.imei;
    if !BrasilSat.Preenchido(imei) {
      return Erro(BadRequest400);
    }
    match provider(imei.value) {
      case Err(_) =>
        return Erro(ServerError500);
      case Ok(tele) =>
        resposta := GravarTelemetria(ativo, tele);
    }
  }

  /**
   * The handler from the telemetry on: the engine flag, the ignition edge,
   * the hours, and the row's columns assigned one by one.
   */
  method GravarTelemetria(ativo: AtivoDados, tele: Dict) returns (resposta: Resposta<Payload>)
    requires BrasilSat.Preenchido(ativo.imei)
    modifies ativo
    ensures AsNumber(HorasMotor(tele)).None? ==> resposta == Erro(ServerError500) && ativo.Estado() == old(ativo.Estado())
    ensures AsNumber(HorasMotor(tele)).Some? ==>
      && resposta == Sucesso(NovoPayload(old(ativo.Estado()), tele))
      && ativo.Estado() == NovoRegistro(old(ativo.Estado()), tele)
  {
    ghost var antes := ativo.Estado();
    var motorRaw := Get(tele, "motor_ligado");
    var motorLigado := MotorLigado(motorRaw);
    var motorAtual := if motorLigado then 1 else 0;

    // a missing previous state is taken as the current one
    var estadoAnterior := if ativo.ultimoEstadoMotor.None? then motorAtual else ativo.ultimoEstadoMotor.value;

    var ignicoes := ativo.totalIgnicoes.GetOr(0);
    var mudouDe0Para1 := estadoAnterior == 0 && motorAtual == 1;
    if mudouDe0Para1 {
      ignicoes := ignicoes + 1;
    }

    var horasMotor := HorasMotor(tele);
    var offset := OrZero(ativo.horasOffset);
    if AsNumber(horasMotor).None? {
      return Erro(ServerError500);
    }
    var horasEmbarcacao := offset + AsNumber(horasMotor).value;

    var horasParadas := if motorAtual == 0 then OrZero(ativo.horasParadas) else 0.0;

    var lat := Get(tele, "latitude");
    var lon := Get(tele, "longitude");

    // the body is assembled from columns the handler does not write
    resposta := Sucesso(Payload(
      ativo.id, ativo.nome, ativo.categoria, ativo.imei.value,
      motorLigado, Get(tele, "tensao_bateria"), Get(tele, "servertime"),
      horasMotor, offset, horasEmbarcacao, horasParadas,
      lat, lon, Get(tele, "velocidade"), Get(tele, "direcao"),
      ignicoes, UnidadeBase(ativo.categoria)));

    if mudouDe0Para1 || estadoAnterior != motorAtual {
      ativo.ultimoEstadoMotor := Some(motorAtual);
    }
    ativo.Salvar(AsNumber(horasMotor).value, Get(tele, "servertime"),
                 horasParadas, lat, lon, Get(tele, "tensao_bateria"), ignicoes);
  }
}
