/**
 * The `clientes` and `usuarios` tables of gerenciador_ativos/models.py as
 * the account handlers see them: rows in id order, the e-mail column
 * declared unique, and the password column.
 */
module Contas {
  import opened Py
  import opened Models

  /** `Usuario.query.filter_by(email=e).first()` */
  function BuscarPorEmail(usuarios: seq<Usuario>, email: string): (r: Option<Usuario>)
    ensures r.Some? ==> r.value in usuarios && r.value.email == email
    ensures r.None? ==> forall u :: u in usuarios ==> u.email != email
  {
    if usuarios == [] then None
    else if usuarios[0].email == email then Some(usuarios[0])
    else BuscarPorEmail(usuarios[1..], email)
  }

  /** `Usuario.query.get(id)` */
  function BuscarPorId(usuarios: seq<Usuario>, id: int): (r: Option<Usuario>)
    ensures r.Some? ==> r.value in usuarios && r.value.id == id
    ensures r.None? ==> forall u :: u in usuarios ==> u.id != id
  {
    if usuarios == [] then None
    else if usuarios[0].id == id then Some(usuarios[0])
    else BuscarPorId(usuarios[1..], id)
  }

  /** `Cliente.query.get(id)` */
  function BuscarCliente(clientes: seq<Cliente>, id: int): (r: Option<Cliente>)
    ensures r.Some? ==> r.value in clientes && r.value.id == id
    ensures r.None? ==> forall c :: c in clientes ==> c.id != id
  {
    if clientes == [] then None
    else if clientes[0].id == id then Some(clientes[0])
    else BuscarCliente(clientes[1..], id)
  }

  /** No two users share an e-mail (the column is declared unique) and ids grow with the rows. */
  predicate UsuariosValidos(usuarios: seq<Usuario>, proximoId: int) {
    && (forall i, j :: 0 <= i < j < |usuarios| ==>
          usuarios[i].email != usuarios[j].email && usuarios[i].id < usuarios[j].id)
    && (forall i :: 0 <= i < |usuarios| ==> usuarios[i].id < proximoId)
  }

  predicate ClientesValidos(clientes: seq<Cliente>, proximoId: int) {
    forall i :: 0 <= i < |clientes| ==> clientes[i].id < proximoId
  }

  /** Adding a user with a fresh e-mail and the next id keeps the table valid. */
  lemma AcrescentarValido(usuarios: seq<Usuario>, proximoId: int, u: Usuario)
    requires UsuariosValidos(usuarios, proximoId)
    requires u.id == proximoId
    requires forall v :: v in usuarios ==> v.email != u.email
    ensures UsuariosValidos(usuarios + [u], proximoId + 1)
  {
    var s := usuarios + [u];
    forall i, j | 0 <= i < j < |s|
      ensures s[i].email != s[j].email && s[i].id < s[j].id
    {
      if j == |usuarios| {
        assert s[i] in usuarios;
      }
    }
  }

  /** Rewriting one row with the same id and an e-mail no other row has keeps the table valid. */
  lemma SubstituirValido(usuarios: seq<Usuario>, proximoId: int, k: int, u: Usuario)
    requires UsuariosValidos(usuarios, proximoId)
    requires 0 <= k < |usuarios| && u.id == usuarios[k].id
    requires forall i :: 0 <= i < |usuarios| && i != k ==> usuarios[i].email != u.email
    ensures UsuariosValidos(usuarios[k := u], proximoId)
  {
  }

  /** The account tables; `senhas` maps a user id to the password its hash was made from. */
  class Tabela {
    var clientes: seq<Cliente>
    var usuarios: seq<Usuario>
    var senhas: map<int, string>
    var proximoClienteId: int
    var proximoUsuarioId: int

    predicate Valid()
      reads this
    {
      UsuariosValidos(usuarios, proximoUsuarioId) && ClientesValidos(clientes, proximoClienteId)
    }

    constructor ()
      ensures Valid()
      ensures clientes == [] && usuarios == [] && senhas == map[]
    {
      clientes := [];
      usuarios := [];
      senhas := map[];
      proximoClienteId := 1;
      proximoUsuarioId := 1;
    }
  }
}
