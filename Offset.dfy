/**
 * POST /api/ativos/<id>/offset (gerenciador_ativos/api/ativos/offset.py):
 * the manual hour-meter offset of a vessel, validated with float() and
 * written over the stored one.
 */
module Offset {
  import opened Py
  import opened Http

  /** The part of the asset row this endpoint reads and writes. */
  class AtivoCalibrado {
    const id: int
    var horasOffset: Option<real>

    constructor (id: int, horasOffset: Option<real>)
      ensures this.id == id && this.horasOffset == horasOffset
    {
      this.id := id;
      this.horasOffset := horasOffset;
    }
  }

  /** The JSON answer on success. */
  datatype OffsetAtualizado = OffsetAtualizado(ativoId: int, offset: real)

  /**
   * `data = request.get_json(silent=True) or {}` followed by
   * `float(data.get("offset"))`. `corpo` is the decoded body, None when it is
   * not JSON. A truthy body that is not an object has no `.get` (500); a
   * missing or non-numeric offset is refused with 400.
   */
  function LerOffset(corpo: Option<PyValue>): (r: Resposta<real>)
    ensures corpo.Some? && Truthy(corpo.value) && !corpo.value.PyDict? ==> r == Erro(ServerError500)
    ensures corpo.None? || !Truthy(corpo.value) ==> r == Erro(BadRequest400)
    ensures corpo.Some? && corpo.value.PyDict? && "offset" !in corpo.value.m ==> r == Erro(BadRequest400)
    ensures r.Sucesso? <==>
              corpo.Some? && corpo.value.PyDict? && "offset" in corpo.value.m
              && ToFloat(corpo.value.m["offset"]).Some?
    ensures r.Sucesso? ==> Some(r.corpo) == ToFloat(corpo.value.m["offset"])
    ensures r.Erro? ==> r.status == BadRequest400 || r.status == ServerError500
  {
    var data := if corpo.Some? && Truthy(corpo.value) then corpo.value else PyDict(map[]);
    if !data.PyDict? then Erro(ServerError500)
    else
      match ToFloat(Get(data.m, "offset"))
      case None => Erro(BadRequest400)
      case Some(x) => Sucesso(x)
  }

  /** Every number is accepted as it is: there is no range check. */
  lemma QualquerNumeroAceito(x: real)
    ensures LerOffset(Some(PyDict(map["offset" := PyFloat(x)]))) == Sucesso(x)
    ensures LerOffset(Some(PyDict(map["offset" := PyInt(x.Floor)]))) == Sucesso(x.Floor as real)
  {
  }

  /**
   * `atualizar_offset(id)`: 404 for an unknown asset; on a valid offset the
   * stored offset is overwritten and echoed with the asset id; on an invalid
   * one nothing is written.
   */
  method AtualizarOffset(ativo: AtivoCalibrado?, corpo: Option<PyValue>) returns (r: Resposta<OffsetAtualizado>)
    modifies ativo
    ensures ativo == null ==> r == Erro(NotFound404)
    ensures ativo != null && LerOffset(corpo).Erro? ==>
              r == Erro(LerOffset(corpo).status) && ativo.horasOffset == old(ativo.horasOffset)
    ensures ativo != null && LerOffset(corpo).Sucesso? ==>
              ativo.horasOffset == Some(LerOffset(corpo).corpo)
              && r == Sucesso(OffsetAtualizado(ativo.id, LerOffset(corpo).corpo))
  {
    if ativo == null {
      return Erro(NotFound404);
    }
    match LerOffset(corpo)
    case Erro(s) =>
      r := Erro(s);
    case Sucesso(novoOffset) =>
      ativo.horasOffset := Some(novoOffset);
      r := Sucesso(OffsetAtualizado(ativo.id, novoOffset));
  }
}
