/**
 * The engine accounting of an asset (`Ativo` in gerenciador_ativos/models.py):
 * the ignition flag's 0->1 and 1->0 edges count ignitions, accumulate the
 * hours the engine was on and keep the on/off timestamps. Also the `Cliente`
 * and `Usuario` records of the same file.
 */
module Models {
  import opened Py

  // ---------------------------------------------------------------------
  // Engine state machine
  // ---------------------------------------------------------------------

  /** The fields of an asset that `atualizar_motor` reads and writes. */
  datatype Motor = Motor(
    totalIgnicoes: int,
    timestampLigado: Option<int>,
    timestampDesligado: Option<int>,
    horasSistemaTotal: real,
    accAnterior: int)

  predicate Ignicao(m: Motor, accAtual: int) {
    m.accAnterior == 0 && accAtual == 1
  }

  predicate Desligamento(m: Motor, accAtual: int) {
    m.accAnterior == 1 && accAtual == 0
  }

  /** Hours the engine was on from `desde` to `agora`, never negative. */
  function HorasDecorridas(desde: int, agora: int): (h: real)
    ensures h >= 0.0
    ensures agora >= desde ==> h * 3600.0 == (agora - desde) as real
    ensures agora < desde ==> h == 0.0
  {
    var tempoLigado := (agora - desde) as real / 3600.0;
    if tempoLigado > 0.0 then tempoLigado else 0.0
  }

  /** Hours since the engine was switched off; 0 when no off-time is recorded. */
  function HorasParadasDesde(timestampDesligado: Option<int>, agora: int): (h: real)
    ensures timestampDesligado.None? ==> h == 0.0
    ensures timestampDesligado.Some? ==> h * 3600.0 == (agora - timestampDesligado.value) as real
  {
    if timestampDesligado.None? then 0.0
    else (agora - timestampDesligado.value) as real / 3600.0
  }

  predicate NuncaAmbos(m: Motor) {
    !(m.timestampLigado.Some? && m.timestampDesligado.Some?)
  }

  /** The state after `atualizar_motor(acc_atual)` at time `agora`. */
  function Atualizar(m: Motor, accAtual: int, agora: int): (r: Motor)
    // the flag is always remembered
    ensures r.accAnterior == accAtual
    // 0 -> 1: one more ignition, the on-time starts now and the off-time is cleared
    ensures Ignicao(m, accAtual) ==>
      && r.totalIgnicoes == m.totalIgnicoes + 1
      && r.timestampLigado == Some(agora)
      && r.timestampDesligado == None
      && r.horasSistemaTotal == m.horasSistemaTotal
    // 1 -> 0: the elapsed on-time is added and the off-time starts now
    ensures Desligamento(m, accAtual) ==>
      && r.totalIgnicoes == m.totalIgnicoes
      && r.horasSistemaTotal == m.horasSistemaTotal +
           (if m.timestampLigado.Some? then HorasDecorridas(m.timestampLigado.value, agora) else 0.0)
      && r.timestampLigado == None
      && r.timestampDesligado == Some(agora)
    // no edge: counters and timestamps are untouched
    ensures !Ignicao(m, accAtual) && !Desligamento(m, accAtual) ==> r == m.(accAnterior := accAtual)
    ensures r.horasSistemaTotal >= m.horasSistemaTotal
    ensures r.totalIgnicoes >= m.totalIgnicoes
    ensures NuncaAmbos(m) ==> NuncaAmbos(r)
  {
    var m1 :=
      if Ignicao(m, accAtual) then
        m.(totalIgnicoes := m.totalIgnicoes + 1, timestampLigado := Some(agora), timestampDesligado := None)
      else m;
    var m2 :=
      if Desligamento(m, accAtual) then
        var horas := if m1.timestampLigado.Some? then HorasDecorridas(m1.timestampLigado.value, agora) else 0.0;
        m1.(horasSistemaTotal := m1.horasSistemaTotal + horas, timestampLigado := None, timestampDesligado := Some(agora))
      else m1;
    m2.(accAnterior := accAtual)
  }

  /** One tracker reading: the ignition flag and when it was applied. */
  datatype Leitura = Leitura(acc: int, agora: int)

  /** The state after applying the readings in order. */
  function Aplicar(m: Motor, leituras: seq<Leitura>): Motor
    decreases |leituras|
  {
    if leituras == [] then m
    else Aplicar(Atualizar(m, leituras[0].acc, leituras[0].agora), leituras[1..])
  }

  /** Number of 0->1 edges in the flags, the first compared with `anterior`. */
  function Subidas(anterior: int, leituras: seq<Leitura>): nat
    decreases |leituras|
  {
    if leituras == [] then 0
    else (if anterior == 0 && leituras[0].acc == 1 then 1 else 0) + Subidas(leituras[0].acc, leituras[1..])
  }

  /** Over any run of readings the ignition count grows by exactly the number of 0->1 edges. */
  lemma {:induction false} AplicarContaSubidas(m: Motor, leituras: seq<Leitura>)
    ensures Aplicar(m, leituras).totalIgnicoes == m.totalIgnicoes + Subidas(m.accAnterior, leituras)
    decreases |leituras|
  {
    if leituras != [] {
      AplicarContaSubidas(Atualizar(m, leituras[0].acc, leituras[0].agora), leituras[1..]);
    }
  }

  /**
   * Over any run of readings the accumulated hours never decrease, the last
   * flag is remembered, and the two timestamps are never both set if they
   * were not at the start.
   */
  lemma {:induction false} AplicarPreserva(m: Motor, leituras: seq<Leitura>)
    ensures Aplicar(m, leituras).horasSistemaTotal >= m.horasSistemaTotal
    ensures leituras != [] ==> Aplicar(m, leituras).accAnterior == leituras[|leituras| - 1].acc
    ensures NuncaAmbos(m) ==> NuncaAmbos(Aplicar(m, leituras))
    decreases |leituras|
  {
    if leituras != [] {
      var rest := leituras[1..];
      AplicarPreserva(Atualizar(m, leituras[0].acc, leituras[0].agora), rest);
      if rest != [] {
        assert rest[|rest| - 1] == leituras[|leituras| - 1];
      }
    }
  }

  /** Readings that repeat the remembered flag change nothing but time. */
  lemma {:induction false} AplicarSemMudanca(m: Motor, leituras: seq<Leitura>)
    requires forall k :: 0 <= k < |leituras| ==> leituras[k].acc == m.accAnterior
    ensures Aplicar(m, leituras) == m
    decreases |leituras|
  {
    if leituras != [] {
      assert Atualizar(m, leituras[0].acc, leituras[0].agora) == m;
      AplicarSemMudanca(m, leituras[1..]);
    }
  }

  /** An asset row: the engine fields that `atualizar_motor` updates in place. */
  class Ativo {
    var totalIgnicoes: int
    var timestampLigado: Option<int>
    var timestampDesligado: Option<int>
    var horasSistemaTotal: real
    var accAnterior: int

    function Estado(): Motor
      reads this
    {
      Motor(totalIgnicoes, timestampLigado, timestampDesligado, horasSistemaTotal, accAnterior)
    }

    /** A new row with the column defaults. */
    constructor ()
      ensures Estado() == Motor(0, None, None, 0.0, 0)
    {
      totalIgnicoes := 0;
      timestampLigado := None;
      timestampDesligado := None;
      horasSistemaTotal := 0.0;
      accAnterior := 0;
    }

    method AtualizarMotor(accAtual: int, agora: int)
      modifies this
      ensures Estado() == Atualizar(old(Estado()), accAtual, agora)
    {
      if accAnterior == 0 && accAtual == 1 {
        totalIgnicoes := totalIgnicoes + 1;
        timestampLigado := Some(agora);
        timestampDesligado := None;
      }
      if accAnterior == 1 && accAtual == 0 {
        if timestampLigado.Some? {
          var tempoLigado := (agora - timestampLigado.value) as real / 3600.0;
          horasSistemaTotal := horasSistemaTotal + (if tempoLigado > 0.0 then tempoLigado else 0.0);
        }
        timestampLigado := None;
        timestampDesligado := Some(agora);
      }
      accAnterior := accAtual;
    }

    /** `horas_paradas()`: the idle hours of this row. */
    function HorasParadas(agora: int): (h: real)
      reads this
      ensures timestampDesligado.None? ==> h == 0.0
      ensures timestampDesligado.Some? ==> h * 3600.0 == (agora - timestampDesligado.value) as real
    {
      HorasParadasDesde(timestampDesligado, agora)
    }

    function EstadoMotor(): (s: string)
      reads this
      ensures s == "ligado" || s == "desligado"
      ensures s == "ligado" <==> accAnterior == 1
    {
      if accAnterior == 1 then "ligado" else "desligado"
    }
  }

  // ---------------------------------------------------------------------
  // Clients and users
  // ---------------------------------------------------------------------

  datatype Cliente = Cliente(id: int, nome: string, tipo: string, email: Option<string>, ativo: bool)

  /** A user row; the password hash is not part of this model. */
  datatype Usuario = Usuario(
    id: int,
    nome: string,
    email: string,
    tipo: string,
    ativo: bool,
    clienteId: Option<int>)

  /** Internal staff are the admin and manager roles. */
  predicate IsInterno(u: Usuario)
    ensures IsInterno(u) <==> u.tipo in {"admin", "gerente"}
  {
    u.tipo == "admin" || u.tipo == "gerente"
  }
}
