/**
 * The client portal (gerenciador_ativos/portal/routes.py): the session's
 * user must be a "cliente" linked to a client, and sees only that
 * client's assets. Both routes sit behind `login_required`, modelled in
 * Decorators.
 */
module Portal {
  import opened Py
  import opened Http
  import opened Models
  import Contas
  import Sorting

  /** The asset columns the portal reads; `cliente_id` is NOT NULL. */
  datatype AtivoPortal = AtivoPortal(id: int, nome: string, clienteId: int)

  /** `if not usuario.cliente_id`: NULL and 0 both count as unlinked. */
  predicate Vinculado(u: Usuario) {
    u.clienteId.Some? && u.clienteId.value != 0
  }

  /**
   * `_get_usuario_cliente()`: 401 without a logged-in id, 403 for a
   * non-client tipo, 401 for an unknown user, 403 for a user with no client.
   */
  function GetUsuarioCliente(sessao: Dict, usuarios: seq<Usuario>): (r: Resposta<Usuario>)
    ensures !Truthy(Get(sessao, "user_id")) ==> r == Erro(Unauthorized401)
    ensures Truthy(Get(sessao, "user_id")) && Get(sessao, "user_tipo") != PyStr("cliente") ==>
              r == Erro(Forbidden403)
    ensures r.Erro? ==> r.status == Unauthorized401 || r.status == Forbidden403
    ensures r.Sucesso? ==>
              && r.corpo in usuarios
              && Get(sessao, "user_id") == PyInt(r.corpo.id)
              && Get(sessao, "user_tipo") == PyStr("cliente")
              && Vinculado(r.corpo)
    ensures Get(sessao, "user_tipo") == PyStr("cliente") && Get(sessao, "user_id").PyInt?
            && Truthy(Get(sessao, "user_id"))
            && (forall u :: u in usuarios ==> PyInt(u.id) != Get(sessao, "user_id")) ==>
              r == Erro(Unauthorized401)
    ensures Truthy(Get(sessao, "user_id")) && Get(sessao, "user_tipo") == PyStr("cliente")
            && Get(sessao, "user_id").PyInt? && Contas.BuscarPorId(usuarios, Get(sessao, "user_id").i).Some? ==>
              var u := Contas.BuscarPorId(usuarios, Get(sessao, "user_id").i).value;
              r == (if Vinculado(u) then Sucesso(u) else Erro(Forbidden403))
  {
    var userId := Get(sessao, "user_id");
    var userTipo := Get(sessao, "user_tipo");
    if !Truthy(userId) then Erro(Unauthorized401)
    else if userTipo != PyStr("cliente") then Erro(Forbidden403)
    else
      var usuario := if userId.PyInt? then Contas.BuscarPorId(usuarios, userId.i) else None;
      if usuario.None? then Erro(Unauthorized401)
      else if !Vinculado(usuario.value) then Erro(Forbidden403)
      else Sucesso(usuario.value)
  }

  /** `Ativo.query.get(id)` */
  function BuscarAtivo(ativos: seq<AtivoPortal>, id: int): (r: Option<AtivoPortal>)
    ensures r.Some? ==> r.value in ativos && r.value.id == id
    ensures r.None? ==> forall a :: a in ativos ==> a.id != id
  {
    if ativos == [] then None
    else if ativos[0].id == id then Some(ativos[0])
    else BuscarAtivo(ativos[1..], id)
  }

  /** `Ativo.query.filter_by(cliente_id=c)` */
  function DoCliente(ativos: seq<AtivoPortal>, clienteId: int): (r: seq<AtivoPortal>)
    ensures forall a :: a in r <==> a in ativos && a.clienteId == clienteId
  {
    if ativos == [] then []
    else (if ativos[0].clienteId == clienteId then [ativos[0]] else []) + DoCliente(ativos[1..], clienteId)
  }

  function PorNome(): (AtivoPortal, AtivoPortal) -> bool {
    (a: AtivoPortal, b: AtivoPortal) => Sorting.TextoAntes(a.nome, b.nome)
  }

  lemma PorNomeOrdena()
    ensures Sorting.TotalPreorder(PorNome())
  {
    forall a: AtivoPortal, b: AtivoPortal ensures PorNome()(a, b) || PorNome()(b, a) {
      Sorting.TextoAntesTotal(a.nome, b.nome);
    }
    forall a: AtivoPortal, b: AtivoPortal, c: AtivoPortal | PorNome()(a, b) && PorNome()(b, c)
      ensures PorNome()(a, c)
    {
      Sorting.TextoAntesTransitivo(a.nome, b.nome, c.nome);
    }
  }

  /** `.filter_by(cliente_id=c).order_by(Ativo.nome)`: the client's assets, by name. */
  function ListaDoCliente(ativos: seq<AtivoPortal>, clienteId: int): (r: seq<AtivoPortal>)
    ensures Sorting.SortedBy(r, PorNome())
    ensures multiset(r) == multiset(DoCliente(ativos, clienteId))
    ensures forall a :: a in r <==> a in ativos && a.clienteId == clienteId
  {
    PorNomeOrdena();
    var lista := Sorting.InsertionSort(DoCliente(ativos, clienteId), PorNome());
    assert forall a :: a in lista <==> a in DoCliente(ativos, clienteId) by {
      forall a ensures a in lista <==> a in DoCliente(ativos, clienteId) {
        assert a in lista <==> a in multiset(lista);
      }
    }
    lista
  }

  datatype Dashboard = Dashboard(cliente: Cliente, ativos: seq<AtivoPortal>, qtdAtivos: int)

  /**
   * `dashboard_cliente()`: the linked client (404 when its row is gone) and
   * exactly its assets, ordered by name, with their count.
   */
  function DashboardCliente(sessao: Dict, usuarios: seq<Usuario>, clientes: seq<Cliente>, ativos: seq<AtivoPortal>)
    : (r: Resposta<Dashboard>)
    ensures GetUsuarioCliente(sessao, usuarios).Erro? ==> r == Erro(GetUsuarioCliente(sessao, usuarios).status)
    ensures GetUsuarioCliente(sessao, usuarios).Sucesso? ==>
              var u := GetUsuarioCliente(sessao, usuarios).corpo;
              && (r == Erro(NotFound404) <==> Contas.BuscarCliente(clientes, u.clienteId.value).None?)
              && (r.Sucesso? ==> r.corpo.cliente in clientes && r.corpo.cliente.id == u.clienteId.value)
              && (Contas.BuscarCliente(clientes, u.clienteId.value).Some? ==> r.Sucesso?)
    ensures r.Sucesso? ==>
              && Sorting.SortedBy(r.corpo.ativos, PorNome())
              && multiset(r.corpo.ativos) == multiset(DoCliente(ativos, r.corpo.cliente.id))
              && (forall a :: a in r.corpo.ativos <==> a in ativos && a.clienteId == r.corpo.cliente.id)
              && r.corpo.qtdAtivos == |r.corpo.ativos|
  {
    match GetUsuarioCliente(sessao, usuarios)
    case Erro(s) => Erro(s)
    case Sucesso(u) =>
      match Contas.BuscarCliente(clientes, u.clienteId.value)
      case None => Erro(NotFound404)
      case Some(cliente) =>
        var lista := ListaDoCliente(ativos, cliente.id);
        Sucesso(Dashboard(cliente, lista, |lista|))
  }

  datatype PainelCliente = PainelCliente(cliente: Cliente, ativo: AtivoPortal)

  /**
   * `painel_ativo_cliente(ativo_id)`: after the user checks, 404 for an
   * unknown asset, 403 for an asset of another client, 404 when the
   * client's row is gone.
   */
  function PainelAtivoCliente(sessao: Dict, usuarios: seq<Usuario>, clientes: seq<Cliente>,
                              ativos: seq<AtivoPortal>, ativoId: int): (r: Resposta<PainelCliente>)
    ensures GetUsuarioCliente(sessao, usuarios).Erro? ==> r == Erro(GetUsuarioCliente(sessao, usuarios).status)
    ensures GetUsuarioCliente(sessao, usuarios).Sucesso? && BuscarAtivo(ativos, ativoId).None? ==>
              r == Erro(NotFound404)
    ensures GetUsuarioCliente(sessao, usuarios).Sucesso? && BuscarAtivo(ativos, ativoId).Some? ==>
              (r == Erro(Forbidden403) <==>
                 Some(BuscarAtivo(ativos, ativoId).value.clienteId) != GetUsuarioCliente(sessao, usuarios).corpo.clienteId)
    ensures GetUsuarioCliente(sessao, usuarios).Sucesso? && BuscarAtivo(ativos, ativoId).Some?
            && Some(BuscarAtivo(ativos, ativoId).value.clienteId) == GetUsuarioCliente(sessao, usuarios).corpo.clienteId ==>
              var u := GetUsuarioCliente(sessao, usuarios).corpo;
              && (r == Erro(NotFound404) <==> Contas.BuscarCliente(clientes, u.clienteId.value).None?)
              && (Contas.BuscarCliente(clientes, u.clienteId.value).Some? ==>
                    r == Sucesso(PainelCliente(Contas.BuscarCliente(clientes, u.clienteId.value).value,
                                               BuscarAtivo(ativos, ativoId).value)))
    ensures r.Sucesso? ==>
              && r.corpo.ativo in ativos && r.corpo.ativo.id == ativoId
              && r.corpo.cliente in clientes
              && r.corpo.ativo.clienteId == r.corpo.cliente.id
              && Some(r.corpo.cliente.id) == GetUsuarioCliente(sessao, usuarios).corpo.clienteId
  {
    match GetUsuarioCliente(sessao, usuarios)
    case Erro(s) => Erro(s)
    case Sucesso(u) =>
      match BuscarAtivo(ativos, ativoId)
      case None => Erro(NotFound404)
      case Some(ativo) =>
        if Some(ativo.clienteId) != u.clienteId then Erro(Forbidden403)
        else
          match Contas.BuscarCliente(clientes, u.clienteId.value)
          case None => Erro(NotFound404)
          case Some(cliente) => Sucesso(PainelCliente(cliente, ativo))
  }

  /** A client user never sees an asset of another client, on either page. */
  lemma SoAtivosProprios(sessao: Dict, usuarios: seq<Usuario>, clientes: seq<Cliente>,
                         ativos: seq<AtivoPortal>, ativoId: int)
    ensures var p := PainelAtivoCliente(sessao, usuarios, clientes, ativos, ativoId);
            p.Sucesso? ==> exists u :: u in usuarios && Get(sessao, "user_id") == PyInt(u.id)
                                       && u.clienteId == Some(p.corpo.ativo.clienteId)
    ensures var d := DashboardCliente(sessao, usuarios, clientes, ativos);
            d.Sucesso? ==> exists u :: u in usuarios && Get(sessao, "user_id") == PyInt(u.id)
                                       && forall a :: a in d.corpo.ativos ==> u.clienteId == Some(a.clienteId)
  {
    var g := GetUsuarioCliente(sessao, usuarios);
    if g.Sucesso? {
      assert g.corpo in usuarios && Get(sessao, "user_id") == PyInt(g.corpo.id);
    }
  }
}
