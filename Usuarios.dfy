/**
 * User management forms (gerenciador_ativos/usuarios/routes.py, with the
 * row writes of gerenciador_ativos/usuarios/service.py). Both routes sit
 * behind `login_required` and `role_required(["admin", "gerente"])`,
 * modelled as Decorators.AreaInterna.
 *
 * A failure the handler does not catch (an attribute of None, a NOT NULL or
 * unique column refused at commit) is the 500 `ErroInterno`, and leaves the
 * tables as they were.
 */
module Usuarios {
  import opened Py
  import opened Models
  import Contas

  type Campos = map<string, string>

  /** `request.form.get(k)` */
  function Campo(f: Campos, k: string): Option<string> {
    if k in f then Some(f[k]) else None
  }

  /** `request.form.get("cliente_id") or None` */
  function ClienteIdTexto(f: Campos): Option<string> {
    if "cliente_id" in f && f["cliente_id"] != "" then Some(f["cliente_id"]) else None
  }

  /** What a form submission ends in. */
  datatype Desfecho =
    | Gravado(id: int)            // redirect to the user list
    | EmailDuplicado              // flash and back to the form
    | ClienteObrigatorio
    | ClienteInvalido
    | NaoEncontrado               // 404
    | ErroInterno                 // 500

  /** `Usuario.query.filter_by(email=email).first()` with `email` possibly None. */
  predicate EmailEmUso(usuarios: seq<Usuario>, email: Option<string>) {
    email.Some? && Contas.BuscarPorEmail(usuarios, email.value).Some?
  }

  // ---------------------------------------------------------------------
  // novo
  // ---------------------------------------------------------------------

  /**
   * The checks of POST /usuarios/novo, in the handler's order, and the row
   * `criar_usuario` builds (its id is assigned on insert).
   */
  function ValidarNovo(f: Campos, usuarios: seq<Usuario>, id: int): (r: Result<Usuario, Desfecho>)
    ensures EmailEmUso(usuarios, LowerOpt(Campo(f, "email"))) ==> r == Err(EmailDuplicado)
    ensures r == Err(ClienteObrigatorio) <==>
              !EmailEmUso(usuarios, LowerOpt(Campo(f, "email")))
              && Campo(f, "tipo") == Some("cliente") && ClienteIdTexto(f).None?
    ensures r.Err? ==> r.error in {EmailDuplicado, ClienteObrigatorio, ErroInterno}
    // accepted exactly when both checks pass and the four fields were sent;
    // an unparseable client id is no reason to refuse
    ensures r.Ok? <==>
              && !EmailEmUso(usuarios, LowerOpt(Campo(f, "email")))
              && !(Campo(f, "tipo") == Some("cliente") && ClienteIdTexto(f).None?)
              && "email" in f && "senha" in f && "nome" in f && "tipo" in f
    ensures r.Ok? ==>
              && Campo(f, "email").Some? && r.value.email == Lower(f["email"])
              && (forall u :: u in usuarios ==> u.email != r.value.email)
              && Campo(f, "nome") == Some(r.value.nome) && Campo(f, "tipo") == Some(r.value.tipo)
              && "senha" in f && r.value.id == id && r.value.ativo
    ensures r.Ok? ==>
              (r.value.clienteId.Some? <==> ClienteIdTexto(f).Some? && ParseInt(ClienteIdTexto(f).value).Some?)
              && (r.value.clienteId.Some? ==> r.value.clienteId == ParseInt(ClienteIdTexto(f).value))
  {
    var email := LowerOpt(Campo(f, "email"));
    if EmailEmUso(usuarios, email) then Err(EmailDuplicado)
    else if Campo(f, "tipo") == Some("cliente") && ClienteIdTexto(f).None? then Err(ClienteObrigatorio)
    else
      var clienteId := if ClienteIdTexto(f).Some? then ParseInt(ClienteIdTexto(f).value) else None;
      if email.None? || "senha" !in f || "nome" !in f || "tipo" !in f then Err(ErroInterno)
      else Ok(Usuario(id, f["nome"], email.value, f["tipo"], true, clienteId))
  }

  /** The address lowered when given. */
  function LowerOpt(e: Option<string>): (r: Option<string>)
    ensures r.Some? <==> e.Some?
    ensures r.Some? ==> r.value == Lower(e.value)
  {
    if e.Some? then Some(Lower(e.value)) else None
  }

  /**
   * The handler's own steps before `criar_usuario`: the address lowered when
   * not empty, the duplicate check, the client check, and the client id
   * converted with a failed conversion read as None.
   */
  method LerNovo(f: Campos, usuarios: seq<Usuario>, id: int) returns (r: Result<Usuario, Desfecho>)
    ensures r == ValidarNovo(f, usuarios, id)
  {
    var nome := Campo(f, "nome");
    var email := Campo(f, "email");
    var senha := Campo(f, "senha");
    var tipo := Campo(f, "tipo");
    var clienteIdTexto := ClienteIdTexto(f);

    if email.Some? && email.value != "" {
      email := Some(Lower(email.value));
    }
    assert email == LowerOpt(Campo(f, "email"));

    if email.Some? && Contas.BuscarPorEmail(usuarios, email.value).Some? {
      return Err(EmailDuplicado);
    }
    if tipo == Some("cliente") && clienteIdTexto.None? {
      return Err(ClienteObrigatorio);
    }
    var clienteId: Option<int> := None;
    if clienteIdTexto.Some? {
      clienteId := ParseInt(clienteIdTexto.value);
    }
    if email.None? || senha.None? || nome.None? || tipo.None? {
      return Err(ErroInterno);
    }
    r := Ok(Usuario(id, nome.value, email.value, tipo.value, true, clienteId));
  }

  /**
   * POST /usuarios/novo as the route intends: the checks, then one new row
   * and its password.
   */
  method Novo(t: Contas.Tabela, f: Campos) returns (d: Desfecho)
    requires t.Valid()
    modifies t
    ensures t.Valid()
    ensures t.clientes == old(t.clientes)
    ensures ValidarNovo(f, old(t.usuarios), old(t.proximoUsuarioId)).Err? ==>
              d == ValidarNovo(f, old(t.usuarios), old(t.proximoUsuarioId)).error
              && t.usuarios == old(t.usuarios) && t.senhas == old(t.senhas)
    ensures ValidarNovo(f, old(t.usuarios), old(t.proximoUsuarioId)).Ok? ==>
              d == Gravado(old(t.proximoUsuarioId))
              && t.usuarios == old(t.usuarios) + [ValidarNovo(f, old(t.usuarios), old(t.proximoUsuarioId)).value]
              && t.senhas == old(t.senhas)[old(t.proximoUsuarioId) := f["senha"]]
  {
    var r := LerNovo(f, t.usuarios, t.proximoUsuarioId);
    if r.Err? {
      return r.error;
    }
    var u := r.value;
    Contas.AcrescentarValido(t.usuarios, t.proximoUsuarioId, u);
    t.usuarios := t.usuarios + [u];
    t.senhas := t.senhas[u.id := f["senha"]];
    t.proximoUsuarioId := t.proximoUsuarioId + 1;
    d := Gravado(u.id);
  }

  /**
   * POST /usuarios/novo as written: `criar_usuario` calls `set_senha`, which
   * the user model does not define, so a form that passes the checks ends in
   * a 500 and no user is ever created.
   */
  function NovoComoEscrito(f: Campos, usuarios: seq<Usuario>, id: int): (d: Desfecho)
    ensures !d.Gravado?
    ensures d == ErroInterno <==> ValidarNovo(f, usuarios, id).Ok? || ValidarNovo(f, usuarios, id) == Err(ErroInterno)
  {
    match ValidarNovo(f, usuarios, id)
    case Ok(_) => ErroInterno
    case Err(e) => e
  }

  /** A complete, fresh form is refused as written and accepted as intended. */
  lemma NovoValidoFalha()
    ensures var f := map["nome" := "Ana", "email" := "ana@x", "senha" := "s", "tipo" := "gerente"];
            ValidarNovo(f, [], 1).Ok? && NovoComoEscrito(f, [], 1) == ErroInterno
  {
    var f := map["nome" := "Ana", "email" := "ana@x", "senha" := "s", "tipo" := "gerente"];
    assert ClienteIdTexto(f).None?;
    assert !EmailEmUso([], LowerOpt(Campo(f, "email")));
  }

  // ---------------------------------------------------------------------
  // editar
  // ---------------------------------------------------------------------

  /**
   * The checks of POST /usuarios/editar/<id> on the row `atual`, and the
   * row `atualizar_usuario` writes back.
   */
  function ValidarEdicao(f: Campos, atual: Usuario, usuarios: seq<Usuario>): (r: Result<Usuario, Desfecho>)
    ensures Campo(f, "tipo") == Some("cliente") && ClienteIdTexto(f).None? ==> r == Err(ClienteObrigatorio)
    ensures (Campo(f, "tipo") == Some("cliente") && ClienteIdTexto(f).Some?
             && ParseInt(ClienteIdTexto(f).value).None?) ==> r == Err(ClienteInvalido)
    ensures r.Err? ==> r.error in {ClienteObrigatorio, ClienteInvalido, ErroInterno}
    // accepted exactly when the client rule holds, the three fields were sent
    // and no other row has the new address (the unique column at commit)
    ensures r.Ok? <==>
              && (Campo(f, "tipo") != Some("cliente")
                  || (ClienteIdTexto(f).Some? && ParseInt(ClienteIdTexto(f).value).Some?))
              && "email" in f && "nome" in f && "tipo" in f
              && !(exists u :: u in usuarios && u.id != atual.id && u.email == Lower(f["email"]))
    ensures r.Ok? && Campo(f, "tipo") != Some("cliente") ==> r.value.clienteId.None?
    ensures r.Ok? && Campo(f, "tipo") == Some("cliente") ==>
              ClienteIdTexto(f).Some? && r.value.clienteId == ParseInt(ClienteIdTexto(f).value)
              && r.value.clienteId.Some?
    ensures r.Ok? ==>
              && r.value.id == atual.id && r.value.ativo == atual.ativo
              && Campo(f, "email").Some? && r.value.email == Lower(f["email"])
              && Campo(f, "nome") == Some(r.value.nome) && Campo(f, "tipo") == Some(r.value.tipo)
              && (forall u :: u in usuarios && u.id != atual.id ==> u.email != r.value.email)
  {
    var email := LowerOpt(Campo(f, "email"));
    var clienteId :=
      if Campo(f, "tipo") != Some("cliente") then Ok(None)
      else if ClienteIdTexto(f).None? then Err(ClienteObrigatorio)
      else if ParseInt(ClienteIdTexto(f).value).None? then Err(ClienteInvalido)
      else Ok(ParseInt(ClienteIdTexto(f).value));
    if clienteId.Err? then Err(clienteId.error)
    else if email.None? || "nome" !in f || "tipo" !in f then Err(ErroInterno)
    else if exists u :: u in usuarios && u.id != atual.id && u.email == email.value then Err(ErroInterno)
    else Ok(Usuario(atual.id, f["nome"], email.value, f["tipo"], atual.ativo, clienteId.value))
  }

  /** `Usuario.query.get_or_404(id)`: the position of the row with that id. */
  method Posicao(usuarios: seq<Usuario>, id: int) returns (k: int)
    ensures 0 <= k <= |usuarios|
    ensures k == |usuarios| <==> Contas.BuscarPorId(usuarios, id).None?
    ensures k < |usuarios| ==> usuarios[k] == Contas.BuscarPorId(usuarios, id).value
  {
    k := 0;
    while k < |usuarios| && usuarios[k].id != id
      invariant 0 <= k <= |usuarios|
      invariant Contas.BuscarPorId(usuarios, id) == Contas.BuscarPorId(usuarios[k..], id)
    {
      assert usuarios[k..][1..] == usuarios[k + 1..];
      k := k + 1;
    }
    if k < |usuarios| {
      assert usuarios[k..][0] == usuarios[k];
    }
  }

  /**
   * The handler's own steps before `atualizar_usuario`: the address lowered
   * when not empty, the client id cleared for a non-client tipo and
   * required and converted for a client.
   */
  method LerEdicao(f: Campos, atual: Usuario, usuarios: seq<Usuario>) returns (r: Result<Usuario, Desfecho>)
    ensures r == ValidarEdicao(f, atual, usuarios)
  {
    var nome := Campo(f, "nome");
    var email := Campo(f, "email");
    var tipo := Campo(f, "tipo");
    var clienteIdTexto := ClienteIdTexto(f);

    if email.Some? && email.value != "" {
      email := Some(Lower(email.value));
    }
    assert email == LowerOpt(Campo(f, "email"));

    var clienteId: Option<int>;
    if tipo != Some("cliente") {
      clienteId := None;
    } else {
      if clienteIdTexto.None? {
        return Err(ClienteObrigatorio);
      }
      clienteId := ParseInt(clienteIdTexto.value);
      if clienteId.None? {
        return Err(ClienteInvalido);
      }
    }
    if email.None? || nome.None? || tipo.None? {
      return Err(ErroInterno);
    }
    if exists u :: u in usuarios && u.id != atual.id && u.email == email.value {
      return Err(ErroInterno);
    }
    r := Ok(Usuario(atual.id, nome.value, email.value, tipo.value, atual.ativo, clienteId));
  }

  /**
   * POST /usuarios/editar/<id>: 404 for an unknown id; otherwise the checks,
   * then that one row rewritten in place and every other row untouched.
   */
  method Editar(t: Contas.Tabela, id: int, f: Campos) returns (d: Desfecho)
    requires t.Valid()
    modifies t
    ensures t.Valid()
    ensures t.clientes == old(t.clientes) && t.senhas == old(t.senhas)
    ensures Contas.BuscarPorId(old(t.usuarios), id).None? ==> d == NaoEncontrado && t.usuarios == old(t.usuarios)
    ensures Contas.BuscarPorId(old(t.usuarios), id).Some? ==>
              var r := ValidarEdicao(f, Contas.BuscarPorId(old(t.usuarios), id).value, old(t.usuarios));
              && (r.Err? ==> d == r.error && t.usuarios == old(t.usuarios))
              && (r.Ok? ==> d == Gravado(id) && |t.usuarios| == |old(t.usuarios)|
                            && r.value in t.usuarios
                            && forall i :: 0 <= i < |t.usuarios| && old(t.usuarios)[i].id != id ==>
                                             t.usuarios[i] == old(t.usuarios)[i])
  {
    var k := Posicao(t.usuarios, id);
    if k == |t.usuarios| {
      return NaoEncontrado;
    }
    var atual := t.usuarios[k];
    var r := LerEdicao(f, atual, t.usuarios);
    if r.Err? {
      return r.error;
    }
    var novo := r.value;
    forall i | 0 <= i < |t.usuarios| && i != k
      ensures t.usuarios[i].email != novo.email
    {
      assert t.usuarios[i].id != atual.id;
    }
    Contas.SubstituirValido(t.usuarios, t.proximoUsuarioId, k, novo);
    t.usuarios := t.usuarios[k := novo];
    assert t.usuarios[k] == novo;
    d := Gravado(id);
  }
}
