/**
 * The maintenance plan of an asset (gerenciador_ativos/api/ativos/plano.py):
 * validation of a new plan item, its insertion, the deletion of an item
 * of the asset and the listing of the asset's items by id.
 *
 * The plan table is a sequence of rows in insertion order; ids come from
 * an auto-increment counter, so the rows are ordered by id.
 */
module Plano {
  import opened Py
  import opened Http

  // ---------------------------------------------------------------------
  // Validation (criar_item_plano)
  // ---------------------------------------------------------------------

  /** A validated item, before it is given an id. */
  datatype NovoItem = NovoItem(
    nome: string,
    base: string,
    intervalo: real,
    primeiraExecucao: Option<real>,
    avisarAntes: Option<real>)

  /**
   * `(v or padrao)` followed by a string method: None when the value is a
   * truthy non-string, whose missing method raises AttributeError.
   */
  function TextoOu(v: PyValue, padrao: string): (r: Option<string>)
    ensures !Truthy(v) ==> r == Some(padrao)
    ensures Truthy(v) ==> (r.Some? <==> v.PyStr?)
    ensures v.PyStr? && v.s != [] ==> r == Some(v.s)
  {
    if !Truthy(v) then Some(padrao)
    else if v.PyStr? then Some(v.s)
    else None
  }

  predicate BaseValida(base: string) {
    base == "horas" || base == "dias"
  }

  /** `request.get_json(silent=True) or {}`; None when it is a truthy non-object. */
  function Dados(corpo: Option<PyValue>): (d: Option<Dict>)
    ensures corpo.None? || !Truthy(corpo.value) ==> d == Some(map[])
    ensures corpo.Some? && corpo.value.PyDict? ==> d == Some(corpo.value.m)
  {
    if corpo.None? || !Truthy(corpo.value) then Some(map[])
    else if corpo.value.PyDict? then Some(corpo.value.m)
    else None
  }

  /** The five fields as the code holds them after reading the body. */
  datatype Campos = Campos(nome: string, base: string, intervalo: PyValue, primeira: PyValue, avisar: PyValue)

  /**
   * Reading the body: the name stripped, the base lower-cased with "horas"
   * as its default, the other three as sent. None for the AttributeError
   * raised by a body that is not an object or a name or base that is not a
   * string.
   */
  function LerCampos(corpo: Option<PyValue>): (c: Option<Campos>)
    ensures Dados(corpo).None? ==> c.None?
    ensures Dados(corpo).Some? ==>
              (c.Some? <==> TextoOu(Get(Dados(corpo).value, "nome"), "").Some?
                            && TextoOu(Get(Dados(corpo).value, "base"), "horas").Some?)
    ensures c.Some? ==>
              var d := Dados(corpo).value;
              && c.value.intervalo == Get(d, "intervalo")
              && c.value.primeira == Get(d, "primeira_execucao")
              && c.value.avisar == Get(d, "avisar_antes")
              && (!Truthy(Get(d, "nome")) ==> c.value.nome == [])
              && (Get(d, "nome").PyStr? ==> c.value.nome == Strip(Get(d, "nome").s))
              && (!Truthy(Get(d, "base")) ==> c.value.base == "horas")
              && (Get(d, "base").PyStr? && Get(d, "base").s != [] ==> c.value.base == Lower(Get(d, "base").s))
  {
    match Dados(corpo)
    case None => None
    case Some(d) =>
      var nome := TextoOu(Get(d, "nome"), "");
      var base := TextoOu(Get(d, "base"), "horas");
      if nome.None? || base.None? then None
      else
        assert Lower("horas") == "horas";
        Some(Campos(Strip(nome.value), Lower(base.value), Get(d, "intervalo"),
                    Get(d, "primeira_execucao"), Get(d, "avisar_antes")))
  }

  /**
   * The checks, in the order the code runs them: the name, the base, the
   * interval; the first that fails answers 400.
   */
  function ValidarCampos(c: Campos): (r: Resposta<NovoItem>)
    ensures r.Erro? ==> r == Erro(BadRequest400)
    ensures c.nome == [] ==> r.Erro?
    ensures !BaseValida(c.base) ==> r.Erro?
    ensures r.Sucesso? <==>
              c.nome != [] && BaseValida(c.base)
              && ToFloat(c.intervalo).Some? && ToFloat(c.intervalo).value > 0.0
    ensures r.Sucesso? ==>
              && r.corpo.nome == c.nome && r.corpo.base == c.base
              && Some(r.corpo.intervalo) == ToFloat(c.intervalo)
              && r.corpo.primeiraExecucao == FloatOuNone(c.primeira)
              && r.corpo.avisarAntes == FloatOuNone(c.avisar)
  {
    if c.nome == [] then Erro(BadRequest400)
    else if !BaseValida(c.base) then Erro(BadRequest400)
    else
      match ToFloat(c.intervalo)
      case None => Erro(BadRequest400)
      case Some(intervalo) =>
        if intervalo <= 0.0 then Erro(BadRequest400)
        else Sucesso(NovoItem(c.nome, c.base, intervalo, FloatOuNone(c.primeira), FloatOuNone(c.avisar)))
  }

  /** `criar_item_plano` up to the insertion: 500 on a wrong shape, else the checks. */
  function ValidarItem(corpo: Option<PyValue>): (r: Resposta<NovoItem>)
    ensures r.Erro? ==> r.status == BadRequest400 || r.status == ServerError500
    ensures r.Sucesso? ==> r.corpo.nome != [] && BaseValida(r.corpo.base) && r.corpo.intervalo > 0.0
    ensures LerCampos(corpo).None? <==> r == Erro(ServerError500)
    ensures LerCampos(corpo).Some? ==> r == ValidarCampos(LerCampos(corpo).value)
  {
    match LerCampos(corpo)
    case None => Erro(ServerError500)
    case Some(c) => ValidarCampos(c)
  }

  /** A name made only of whitespace is refused before the base and the interval are looked at. */
  lemma NomeEmBrancoRecusado(d: Dict, nome: string)
    requires "nome" in d && d["nome"] == PyStr(nome) && Blank(nome)
    requires LerCampos(Some(PyDict(d))).Some?
    ensures ValidarItem(Some(PyDict(d))) == Erro(BadRequest400)
  {
    StripEmptyIffBlank(nome);
  }

  /** The base is compared after lower-casing: "DIAS" is accepted as "dias". */
  lemma BaseMaiusculaAceita(d: Dict)
    requires "base" in d && d["base"] == PyStr("DIAS")
    requires LerCampos(Some(PyDict(d))).Some?
    ensures LerCampos(Some(PyDict(d))).value.base == "dias"
  {
    assert Lower("DIAS") == "dias";
  }

  /** An optional field that float() refuses becomes None rather than an error. */
  lemma OpcionalInvalidoViraNone()
    ensures FloatOuNone(PyStr("x")) == None
    ensures FloatOuNone(PyList([])) == None
  {
    assert Strip("x") == "x";
    assert DotIndex("x") == 1;
  }

  // ---------------------------------------------------------------------
  // The plan table
  // ---------------------------------------------------------------------

  /** A row of the plan table. */
  datatype Item = Item(
    id: int,
    ativoId: int,
    nome: string,
    base: string,
    intervalo: real,
    primeiraExecucao: Option<real>,
    avisarAntes: Option<real>)

  predicate IdsCrescentes(itens: seq<Item>) {
    forall i, j :: 0 <= i < j < |itens| ==> itens[i].id < itens[j].id
  }

  /** `filter_by(ativo_id=...)` over the rows in table order. */
  function Filtro(itens: seq<Item>, ativoId: int): (r: seq<Item>)
    ensures |r| <= |itens|
    ensures forall x :: x in r <==> x in itens && x.ativoId == ativoId
  {
    if itens == [] then []
    else
      var resto := Filtro(itens[..|itens| - 1], ativoId);
      var x := itens[|itens| - 1];
      assert itens == itens[..|itens| - 1] + [x];
      if x.ativoId == ativoId then resto + [x] else resto
  }

  /** Filtering keeps the rows in id order. */
  lemma {:induction false} FiltroOrdenado(itens: seq<Item>, ativoId: int)
    requires IdsCrescentes(itens)
    ensures IdsCrescentes(Filtro(itens, ativoId))
  {
    if itens != [] {
      var prefixo := itens[..|itens| - 1];
      assert IdsCrescentes(prefixo);
      FiltroOrdenado(prefixo, ativoId);
      var resto := Filtro(prefixo, ativoId);
      forall k | 0 <= k < |resto|
        ensures resto[k].id < itens[|itens| - 1].id
      {
        assert resto[k] in prefixo;
      }
    }
  }

  /** The rows without the one whose id is `id`. */
  function Sem(itens: seq<Item>, id: int): seq<Item>
  {
    if itens == [] then []
    else (if itens[0].id == id then [] else [itens[0]]) + Sem(itens[1..], id)
  }

  lemma {:induction false} SemAusente(itens: seq<Item>, id: int)
    requires forall k :: 0 <= k < |itens| ==> itens[k].id != id
    ensures Sem(itens, id) == itens
  {
    if itens != [] {
      SemAusente(itens[1..], id);
    }
  }

  /** With unique ids, removing by id removes exactly the row at its position. */
  lemma {:induction false} SemPosicao(itens: seq<Item>, k: int)
    requires IdsCrescentes(itens) && 0 <= k < |itens|
    ensures Sem(itens, itens[k].id) == itens[..k] + itens[k + 1..]
  {
    var id := itens[k].id;
    var cauda := itens[1..];
    if k == 0 {
      forall j | 0 <= j < |cauda|
        ensures cauda[j].id != id
      {
        assert cauda[j] == itens[j + 1];
      }
      SemAusente(cauda, id);
    } else {
      assert IdsCrescentes(cauda) by {
        forall i, j | 0 <= i < j < |cauda|
          ensures cauda[i].id < cauda[j].id
        {
          assert cauda[i] == itens[i + 1] && cauda[j] == itens[j + 1];
        }
      }
      assert cauda[k - 1] == itens[k];
      SemPosicao(cauda, k - 1);
      assert itens[0].id != id;
      assert Sem(itens, id) == [itens[0]] + Sem(cauda, id);
      assert itens[..k] + itens[k + 1..] == [itens[0]] + (cauda[..k - 1] + cauda[k..]);
    }
  }

  /** Removing a row of one asset leaves every other asset's plan as it was. */
  lemma {:induction false} ExclusaoPreservaOutros(itens: seq<Item>, id: int, ativoId: int, outro: int)
    requires forall k :: 0 <= k < |itens| && itens[k].id == id ==> itens[k].ativoId == ativoId
    requires outro != ativoId
    ensures Filtro(Sem(itens, id), outro) == Filtro(itens, outro)
  {
    if itens != [] {
      var ultimo := itens[|itens| - 1];
      var prefixo := itens[..|itens| - 1];
      forall k | 0 <= k < |prefixo| && prefixo[k].id == id
        ensures prefixo[k].ativoId == ativoId
      {
        assert prefixo[k] == itens[k];
      }
      ExclusaoPreservaOutros(prefixo, id, ativoId, outro);
      assert itens == prefixo + [ultimo];
      SemFinal(prefixo, ultimo, id);
      FiltroFinal(prefixo, ultimo, outro);
      if ultimo.id != id {
        FiltroFinal(Sem(prefixo, id), ultimo, outro);
      } else {
        assert Sem(itens, id) == Sem(prefixo, id);
        assert ultimo.ativoId != outro;
      }
    }
  }

  lemma {:induction false} SemFinal(s: seq<Item>, x: Item, id: int)
    ensures Sem(s + [x], id) == Sem(s, id) + (if x.id == id then [] else [x])
  {
    if s != [] {
      assert (s + [x])[1..] == s[1..] + [x];
      SemFinal(s[1..], x, id);
    }
  }

  lemma FiltroFinal(s: seq<Item>, x: Item, ativoId: int)
    ensures Filtro(s + [x], ativoId) == Filtro(s, ativoId) + (if x.ativoId == ativoId then [x] else [])
  {
    assert (s + [x])[..|s + [x]| - 1] == s;
  }

  /** The plan table with its id counter. */
  class TabelaPlano {
    var itens: seq<Item>
    var proximoId: int

    /** Ids increase along the table and stay below the next id to hand out. */
    predicate Valid()
      reads this
    {
      && IdsCrescentes(itens)
      && (forall k :: 0 <= k < |itens| ==> itens[k].id < proximoId)
    }

    constructor ()
      ensures Valid() && itens == [] && proximoId == 1
    {
      itens := [];
      proximoId := 1;
    }

    /**
     * `criar_item_plano(id)`: 404 for an unknown asset, the validation
     * error, or a new row for the asset with the next id (answered with
     * 201 and that id).
     */
    method CriarItemPlano(ativoExiste: bool, ativoId: int, corpo: Option<PyValue>) returns (r: Resposta<int>)
      requires Valid()
      modifies this
      ensures Valid()
      ensures !ativoExiste ==> r == Erro(NotFound404) && itens == old(itens) && proximoId == old(proximoId)
      ensures ativoExiste && ValidarItem(corpo).Erro? ==>
                r == Erro(ValidarItem(corpo).status) && itens == old(itens) && proximoId == old(proximoId)
      ensures ativoExiste && ValidarItem(corpo).Sucesso? ==>
                var n := ValidarItem(corpo).corpo;
                && r == Sucesso(old(proximoId))
                && itens == old(itens) + [Item(old(proximoId), ativoId, n.nome, n.base, n.intervalo,
                                               n.primeiraExecucao, n.avisarAntes)]
                && proximoId == old(proximoId) + 1
    {
      if !ativoExiste {
        return Erro(NotFound404);
      }
      match ValidarItem(corpo)
      case Erro(s) =>
        r := Erro(s);
      case Sucesso(n) =>
        var it := Item(proximoId, ativoId, n.nome, n.base, n.intervalo, n.primeiraExecucao, n.avisarAntes);
        itens := itens + [it];
        r := Sucesso(proximoId);
        proximoId := proximoId + 1;
    }

    /**
     * `excluir_item_plano(id, item_id)`: the row is looked up by both the
     * asset and the item id; 404 when there is none, otherwise it alone is
     * removed.
     */
    method ExcluirItemPlano(ativoExiste: bool, ativoId: int, itemId: int) returns (r: Resposta<()>)
      requires Valid()
      modifies this
      ensures Valid() && proximoId == old(proximoId)
      ensures !ativoExiste ==> r == Erro(NotFound404) && itens == old(itens)
      ensures ativoExiste ==>
                var existe := exists k :: 0 <= k < |old(itens)| && old(itens)[k].id == itemId
                                         && old(itens)[k].ativoId == ativoId;
                && (!existe ==> r == Erro(NotFound404) && itens == old(itens))
                && (existe ==> r == Sucesso(()) && itens == Sem(old(itens), itemId))
    {
      if !ativoExiste {
        return Erro(NotFound404);
      }
      var k := 0;
      while k < |itens| && !(itens[k].id == itemId && itens[k].ativoId == ativoId)
        invariant 0 <= k <= |itens|
        invariant forall j :: 0 <= j < k ==> !(itens[j].id == itemId && itens[j].ativoId == ativoId)
      {
        k := k + 1;
      }
      if k == |itens| {
        return Erro(NotFound404);
      }
      SemPosicao(itens, k);
      itens := itens[..k] + itens[k + 1..];
      r := Sucesso(());
    }

    /** `listar_plano(id)`: the asset's rows, in id order. */
    method ListarPlano(ativoExiste: bool, ativoId: int) returns (r: Resposta<seq<Item>>)
      requires Valid()
      ensures !ativoExiste ==> r == Erro(NotFound404)
      ensures ativoExiste ==> r == Sucesso(Filtro(itens, ativoId)) && IdsCrescentes(r.corpo)
    {
      if !ativoExiste {
        return Erro(NotFound404);
      }
      var data := [];
      for i := 0 to |itens|
        invariant data == Filtro(itens[..i], ativoId)
      {
        assert itens[..i + 1][..i] == itens[..i];
        if itens[i].ativoId == ativoId {
          data := data + [itens[i]];
        }
      }
      assert itens[..|itens|] == itens;
      FiltroOrdenado(itens, ativoId);
      r := Sucesso(data);
    }
  }
}
