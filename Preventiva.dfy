/**
 * GET /api/ativos/<id>/preventiva (gerenciador_ativos/api/ativos/preventiva.py):
 * for each fixed maintenance rule, the engine hours left until the next
 * multiple of its interval, sorted so the nearest task comes first.
 */
module Preventiva {
  import opened Py
  import opened Http
  import Sorting

  /** A maintenance rule: a name and an interval in engine hours. */
  datatype Regra = Regra(nome: string, intervalo: Option<real>)

  /** MANUTENCAO_REGRAS */
  const ManutencaoRegras: seq<Regra> := [
    Regra("Troca de óleo do motor", Some(100.0)),
    Regra("Troca do filtro de óleo", Some(200.0)),
    Regra("Drenar separador de água/combustível", Some(50.0))
  ]

  /** One entry of "tarefas": the rule's name and the hours left, rounded to one decimal. */
  datatype Tarefa = Tarefa(nome: string, faltam: real)

  // ---------------------------------------------------------------------
  // Python's float modulo
  // ---------------------------------------------------------------------

  lemma MulMonotone(a: real, b: real, m: real)
    requires m > 0.0 && a <= b
    ensures a * m <= b * m
  {
    assert b * m - a * m == (b - a) * m;
  }

  lemma MulStrict(a: real, b: real, m: real)
    requires m > 0.0 && a < b
    ensures a * m < b * m
  {
    assert b * m - a * m == (b - a) * m;
  }

  /** `x // m` for m > 0: the largest k with k * m <= x. */
  function Quociente(x: real, m: real): (k: int)
    requires m > 0.0
    ensures k as real * m <= x < (k + 1) as real * m
  {
    var q := x / m;
    DivVezes(x, m);
    MultiploAbaixo(x, m, q, q.Floor);
    MultiploAcima(x, m, q, q.Floor);
    q.Floor
  }

  lemma DivVezes(x: real, m: real)
    requires m > 0.0
    ensures (x / m) * m == x
  {
  }

  lemma MultiploAbaixo(x: real, m: real, q: real, k: int)
    requires m > 0.0 && q * m == x && k as real <= q
    ensures k as real * m <= x
  {
    MulMonotone(k as real, q, m);
  }

  lemma MultiploAcima(x: real, m: real, q: real, k: int)
    requires m > 0.0 && q * m == x && q < k as real + 1.0
    ensures x < (k + 1) as real * m
  {
    MulStrict(q, (k + 1) as real, m);
  }

  /** `x % m` for m > 0: the remainder takes the sign of m, so it lies in [0, m). */
  function Resto(x: real, m: real): (r: real)
    requires m > 0.0
    ensures 0.0 <= r < m
    ensures x == Quociente(x, m) as real * m + r
  {
    x - Quociente(x, m) as real * m
  }

  /**
   * `faltam`: the interval minus the remainder, or the whole interval when
   * the hours sit exactly on a multiple.
   */
  function Faltam(horas: real, intervalo: real): (f: real)
    requires intervalo > 0.0
    ensures 0.0 < f <= intervalo
    ensures horas + f == (Quociente(horas, intervalo) + 1) as real * intervalo
  {
    var resto := Resto(horas, intervalo);
    if resto > 0.0 then intervalo - resto else intervalo
  }

  /** horas + faltam is the least multiple of the interval strictly above horas. */
  lemma ProximoMultiplo(horas: real, intervalo: real, n: int)
    requires intervalo > 0.0
    requires n as real * intervalo > horas
    ensures horas < horas + Faltam(horas, intervalo) <= n as real * intervalo
  {
    var k := Quociente(horas, intervalo);
    var f := Faltam(horas, intervalo);
    assert horas + f == (k + 1) as real * intervalo;
    AcimaDoQuociente(horas, intervalo, n, k);
    MulMonotone((k + 1) as real, n as real, intervalo);
  }

  lemma AcimaDoQuociente(horas: real, intervalo: real, n: int, k: int)
    requires intervalo > 0.0
    requires k as real * intervalo <= horas < n as real * intervalo
    ensures k < n
  {
    if n <= k {
      MulMonotone(n as real, k as real, intervalo);
    }
  }

  // ---------------------------------------------------------------------
  // Hours and tasks
  // ---------------------------------------------------------------------

  /** The asset columns the endpoint reads (`None` for NULL or absent). */
  datatype AtivoPreventiva = AtivoPreventiva(horasSistemaTotal: Option<real>, timestampLigado: Option<int>)

  /**
   * The stored total plus, when an ignition time is stored, the hours
   * since then, never negative.
   */
  function HorasTotal(a: AtivoPreventiva, agora: int): (h: real)
    ensures h >= OrZero(a.horasSistemaTotal)
    ensures a.timestampLigado.None? ==> h == OrZero(a.horasSistemaTotal)
    ensures a.timestampLigado.Some? && a.timestampLigado.value <= agora ==>
              (h - OrZero(a.horasSistemaTotal)) * 3600.0 == (agora - a.timestampLigado.value) as real
    ensures a.timestampLigado.Some? && a.timestampLigado.value > agora ==> h == OrZero(a.horasSistemaTotal)
  {
    var total := OrZero(a.horasSistemaTotal);
    if a.timestampLigado.None? then total
    else
      var ciclo := (agora - a.timestampLigado.value) as real / 3600.0;
      total + (if ciclo > 0.0 then ciclo else 0.0)
  }

  /** `float(regra.get("intervalo", 0.0) or 0.0)` */
  function Intervalo(r: Regra): real {
    OrZero(r.intervalo)
  }

  /** The rules that produce a task: those with a positive interval, in order. */
  function Ativas(regras: seq<Regra>): (s: seq<Regra>)
    ensures |s| <= |regras|
    ensures forall k :: 0 <= k < |s| ==> Intervalo(s[k]) > 0.0 && s[k] in regras
    ensures forall r :: r in regras && Intervalo(r) > 0.0 ==> r in s
  {
    if regras == [] then []
    else
      var resto := Ativas(regras[..|regras| - 1]);
      var r := regras[|regras| - 1];
      if Intervalo(r) > 0.0 then resto + [r] else resto
  }

  /** The filter keeps the order: it distributes over concatenation. */
  lemma {:induction false} AtivasConcatena(a: seq<Regra>, b: seq<Regra>)
    ensures Ativas(a + b) == Ativas(a) + Ativas(b)
    decreases |b|
  {
    if b == [] {
      assert a + b == a;
    } else {
      var b' := b[..|b| - 1];
      assert (a + b)[..|a + b| - 1] == a + b';
      assert (a + b)[|a + b| - 1] == b[|b| - 1];
      AtivasConcatena(a, b');
    }
  }

  /** Rules that all have a positive interval are all kept, in their order. */
  lemma {:induction false} AtivasTodas(regras: seq<Regra>)
    requires forall r :: r in regras ==> Intervalo(r) > 0.0
    ensures Ativas(regras) == regras
  {
    if regras != [] {
      var prefixo := regras[..|regras| - 1];
      assert forall r :: r in prefixo ==> r in regras;
      AtivasTodas(prefixo);
      assert prefixo + [regras[|regras| - 1]] == regras;
    }
  }

  /** Every fixed rule produces a task. */
  lemma RegrasFixasAtivas()
    ensures Ativas(ManutencaoRegras) == ManutencaoRegras
  {
    AtivasTodas(ManutencaoRegras);
  }

  function TarefaDe(r: Regra, horas: real): Tarefa
    requires Intervalo(r) > 0.0
  {
    Tarefa(r.nome, Round(Faltam(horas, Intervalo(r)), 1))
  }

  /** The tasks in the order of the rules, before sorting. */
  function Tarefas(regras: seq<Regra>, horas: real): (t: seq<Tarefa>)
  {
    if regras == [] then []
    else
      var resto := Tarefas(regras[..|regras| - 1], horas);
      var r := regras[|regras| - 1];
      if Intervalo(r) > 0.0 then resto + [TarefaDe(r, horas)] else resto
  }

  /** One task per active rule, carrying its name and the hours left to its next multiple. */
  lemma {:induction false} UmaTarefaPorRegra(regras: seq<Regra>, horas: real)
    ensures |Tarefas(regras, horas)| == |Ativas(regras)|
    ensures forall k :: 0 <= k < |Ativas(regras)| ==>
              Tarefas(regras, horas)[k] == TarefaDe(Ativas(regras)[k], horas)
  {
    if regras != [] {
      UmaTarefaPorRegra(regras[..|regras| - 1], horas);
    }
  }

  /** Each task is due within (0, interval], up to the rounding to one decimal. */
  lemma PrazoDentroDoIntervalo(r: Regra, horas: real)
    requires Intervalo(r) > 0.0
    ensures -HalfUnit(1) < TarefaDe(r, horas).faltam <= Intervalo(r) + HalfUnit(1)
  {
  }

  function PorFaltam(): (Tarefa, Tarefa) -> bool {
    (a: Tarefa, b: Tarefa) => a.faltam <= b.faltam
  }

  lemma PorFaltamOrdena()
    ensures Sorting.TotalPreorder(PorFaltam())
  {
  }

  /**
   * The loop over the rules followed by `tarefas.sort(key=faltam)`: the
   * tasks of the active rules, nearest first.
   */
  method CalcularTarefas(regras: seq<Regra>, horas: real) returns (tarefas: seq<Tarefa>)
    ensures Sorting.SortedBy(tarefas, PorFaltam())
    ensures multiset(tarefas) == multiset(Tarefas(regras, horas))
    ensures forall y :: Sorting.Empatados(tarefas, y, PorFaltam()) == Sorting.Empatados(Tarefas(regras, horas), y, PorFaltam())
  {
    tarefas := [];
    for i := 0 to |regras|
      invariant tarefas == Tarefas(regras[..i], horas)
    {
      assert regras[..i + 1][..i] == regras[..i];
      var regra := regras[i];
      var intervalo := OrZero(regra.intervalo);
      if intervalo <= 0.0 {
        continue;
      }
      var resto := Resto(horas, intervalo);
      var faltam := if resto > 0.0 then intervalo - resto else intervalo;
      tarefas := tarefas + [Tarefa(regra.nome, Round(faltam, 1))];
    }
    assert regras[..|regras|] == regras;
    PorFaltamOrdena();
    var antes := tarefas;
    tarefas := Sorting.InsertionSort(antes, PorFaltam());
    forall y ensures Sorting.Empatados(tarefas, y, PorFaltam()) == Sorting.Empatados(antes, y, PorFaltam()) {
      Sorting.InsertionSortEstavel(antes, y, PorFaltam());
    }
  }

  /**
   * `preventiva_ativo(id)` with the ignition time taken in seconds: 404 for
   * an unknown asset, otherwise the sorted tasks of MANUTENCAO_REGRAS.
   */
  method PreventivaAtivo(ativo: Option<AtivoPreventiva>, agora: int) returns (r: Resposta<seq<Tarefa>>)
    ensures ativo.None? <==> r == Erro(NotFound404)
    ensures ativo.Some? ==>
              r.Sucesso? && Sorting.SortedBy(r.corpo, PorFaltam())
              && multiset(r.corpo) == multiset(Tarefas(ManutencaoRegras, HorasTotal(ativo.value, agora)))
              && forall y :: Sorting.Empatados(r.corpo, y, PorFaltam())
                             == Sorting.Empatados(Tarefas(ManutencaoRegras, HorasTotal(ativo.value, agora)), y, PorFaltam())
  {
    if ativo.None? {
      return Erro(NotFound404);
    }
    var tarefas := CalcularTarefas(ManutencaoRegras, HorasTotal(ativo.value, agora));
    r := Sucesso(tarefas);
  }

  /**
   * `preventiva_ativo(id)` as written: `float(ts_ligado)` on the DateTime
   * column raises TypeError, so any asset with a stored ignition time gets
   * a 500.
   */
  method PreventivaAtivoComoEscrito(ativo: Option<AtivoPreventiva>, agora: int) returns (r: Resposta<seq<Tarefa>>)
    ensures ativo.None? ==> r == Erro(NotFound404)
    ensures ativo.Some? && ativo.value.timestampLigado.Some? ==> r == Erro(ServerError500)
    ensures ativo.Some? && ativo.value.timestampLigado.None? ==>
              r.Sucesso? && Sorting.SortedBy(r.corpo, PorFaltam())
              && multiset(r.corpo) == multiset(Tarefas(ManutencaoRegras, OrZero(ativo.value.horasSistemaTotal)))
              && forall y :: Sorting.Empatados(r.corpo, y, PorFaltam())
                             == Sorting.Empatados(Tarefas(ManutencaoRegras, OrZero(ativo.value.horasSistemaTotal)), y, PorFaltam())
  {
    if ativo.None? {
      return Erro(NotFound404);
    }
    if ativo.value.timestampLigado.Some? {
      return Erro(ServerError500);
    }
    var tarefas := CalcularTarefas(ManutencaoRegras, OrZero(ativo.value.horasSistemaTotal));
    r := Sucesso(tarefas);
  }

  /** All three fixed rules have a positive interval, so each yields a task. */
  lemma TresTarefas(horas: real)
    ensures |Tarefas(ManutencaoRegras, horas)| == 3
    ensures forall k :: 0 <= k < 3 ==> Tarefas(ManutencaoRegras, horas)[k] == TarefaDe(ManutencaoRegras[k], horas)
  {
    UmaTarefaPorRegra(ManutencaoRegras, horas);
    RegrasFixasAtivas();
  }
}
