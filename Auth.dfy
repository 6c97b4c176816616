/**
 * Login, logout, open registration and the admin password reset
 * (gerenciador_ativos/auth/routes.py).
 *
 * A request's query string and form are maps from field name to text.
 * Password checking (`autenticar_usuario`) is a parameter, and a stored
 * password stands for the hash made from it.
 */
module Auth {
  import opened Py
  import opened Http
  import opened Models
  import Contas
  import Decorators

  type Campos = map<string, string>

  /** `request.form.get(k) or ""` */
  function Texto(f: Campos, k: string): string {
    if k in f then f[k] else ""
  }

  predicate ComecaComBarra(s: string) {
    |s| > 0 && s[0] == '/'
  }

  // ---------------------------------------------------------------------
  // _safe_next_url
  // ---------------------------------------------------------------------

  /**
   * `_safe_next_url()` as written: the query string's "next" when it is not
   * empty, the form's otherwise, kept only when it begins with "/".
   */
  function SafeNextUrl(args: Campos, form: Campos): (r: Option<string>)
    ensures Texto(args, "next") != "" ==>
              (r.Some? <==> ComecaComBarra(args["next"])) && (r.Some? ==> r.value == args["next"])
    ensures Texto(args, "next") == "" ==>
              (r.Some? <==> "next" in form && ComecaComBarra(form["next"])) && (r.Some? ==> r.value == form["next"])
  {
    var nxt := if Texto(args, "next") != "" then Some(args["next"])
               else if "next" in form then Some(form["next"])
               else None;
    if nxt.Some? && nxt.value != "" && ComecaComBarra(nxt.value) then nxt else None
  }

  /** A non-empty "next" in the query string decides alone: the form is not read. */
  lemma QueryStringVence(args: Campos, form1: Campos, form2: Campos)
    requires Texto(args, "next") != ""
    ensures SafeNextUrl(args, form1) == SafeNextUrl(args, form2)
  {
  }

  /** A URL beginning with "//" names another host, and the check lets it through. */
  lemma OutroHostAceito()
    ensures SafeNextUrl(map["next" := "//exemplo.invalid/x"], map[]) == Some("//exemplo.invalid/x")
  {
  }

  /** A path on this site: begins with "/" and not with "//" or "/\". */
  predicate CaminhoLocal(s: string) {
    ComecaComBarra(s) && !(|s| > 1 && (s[1] == '/' || s[1] == '\\'))
  }

  /** `_safe_next_url()` keeping only paths on this site. */
  function SafeNextUrlLocal(args: Campos, form: Campos): (r: Option<string>)
    ensures r.Some? ==> CaminhoLocal(r.value) && SafeNextUrl(args, form) == r
    ensures SafeNextUrl(args, form).Some? && CaminhoLocal(SafeNextUrl(args, form).value) ==>
              r == SafeNextUrl(args, form)
  {
    match SafeNextUrl(args, form)
    case Some(url) => if CaminhoLocal(url) then Some(url) else None
    case None => None
  }

  lemma OutroHostRecusado()
    ensures SafeNextUrlLocal(map["next" := "//exemplo.invalid/x"], map[]) == None
  {
  }

  // ---------------------------------------------------------------------
  // E-mail normalisation
  // ---------------------------------------------------------------------

  /** `(email or "").strip().lower()` */
  function NormalizarEmail(e: string): (r: string)
    ensures |r| <= |e|
    ensures forall k :: 0 <= k < |r| ==> !('A' <= r[k] <= 'Z')
    ensures r == [] || (!IsSpace(r[0]) && !IsSpace(r[|r| - 1]))
  {
    StripEnds(e);
    StripRightPrefix(StripLeft(e));
    StripLeftShorter(e);
    Lower(Strip(e))
  }

  lemma {:induction false} StripLeftShorter(s: string)
    ensures |StripLeft(s)| <= |s|
  {
    if s != [] && IsSpace(s[0]) {
      StripLeftShorter(s[1..]);
    }
  }

  /** A normalised address is left as it is by a second normalisation. */
  lemma NormalizarIdempotente(e: string)
    ensures NormalizarEmail(NormalizarEmail(e)) == NormalizarEmail(e)
  {
    var n := NormalizarEmail(e);
    StripTrimmed(n);
    LowerIdempotent(Strip(e));
  }

  /** Addresses differing only in case and surrounding whitespace normalise alike. */
  lemma NormalizarIgnoraCaixa(e: string)
    ensures NormalizarEmail(" " + e + "\n") == NormalizarEmail(e)
    ensures NormalizarEmail(Lower(e)) == NormalizarEmail(e)
  {
    assert (" " + e + "\n")[1..] == e + "\n";
    assert StripLeft(" " + e + "\n") == StripLeft(e + "\n");
    StripRightNewline(StripLeft(e));
    StripLeftAppend(e, "\n");
    LowerStripCommute(e);
    LowerIdempotent(Strip(e));
  }

  lemma {:induction false} StripRightNewline(s: string)
    ensures StripRight(s + "\n") == StripRight(s)
  {
    assert (s + "\n")[..|s + "\n"| - 1] == s;
  }

  lemma {:induction false} StripLeftAppend(s: string, tail: string)
    requires Blank(tail)
    ensures StripRight(StripLeft(s + tail)) == StripRight(StripLeft(s))
  {
    if s != [] && IsSpace(s[0]) {
      assert (s + tail)[1..] == s[1..] + tail;
      StripLeftAppend(s[1..], tail);
    } else if s == [] {
      assert s + tail == tail;
      StripRightEmptyIffBlank(tail);
      StripLeftEmptyIffBlank(tail);
      StripLeftBlank(tail);
      StripRightEmptyIffBlank(StripLeft(tail));
    } else {
      StripRightAppend(s, tail);
    }
  }

  lemma {:induction false} StripRightAppend(s: string, tail: string)
    requires Blank(tail)
    ensures StripRight(s + tail) == StripRight(s)
    decreases |tail|
  {
    if tail != [] {
      var t := tail[..|tail| - 1];
      assert (s + tail)[..|s + tail| - 1] == s + t;
      assert IsSpace(tail[|tail| - 1]);
      StripRightAppend(s, t);
    } else {
      assert s + tail == s;
    }
  }

  lemma {:induction false} LowerStripCommute(s: string)
    ensures Strip(Lower(s)) == Lower(Strip(s))
  {
    LowerStripLeft(s);
    LowerStripRight(StripLeft(s));
  }

  lemma {:induction false} LowerStripLeft(s: string)
    ensures StripLeft(Lower(s)) == Lower(StripLeft(s))
  {
    if s != [] {
      assert Lower(s)[1..] == Lower(s[1..]);
      LowerStripLeft(s[1..]);
    }
  }

  lemma {:induction false} LowerStripRight(s: string)
    ensures StripRight(Lower(s)) == Lower(StripRight(s))
  {
    if s != [] {
      assert Lower(s)[..|s| - 1] == Lower(s[..|s| - 1]);
      LowerStripRight(s[..|s| - 1]);
    }
  }

  // ---------------------------------------------------------------------
  // Login and logout
  // ---------------------------------------------------------------------

  /** Where a successful login sends the user. */
  datatype Destino = Proximo(url: string) | DashboardGerente | PortalCliente

  /** The redirect after login: a safe "next" first, then the manager dashboard for staff. */
  function DestinoApos(u: Usuario, proximo: Option<string>): (d: Destino)
    ensures proximo.Some? && proximo.value != "" <==> d.Proximo?
    ensures d.Proximo? ==> d.url == proximo.value
    ensures d == DashboardGerente <==> (proximo.None? || proximo.value == "") && IsInterno(u)
  {
    if proximo.Some? && proximo.value != "" then Proximo(proximo.value)
    else if IsInterno(u) then DashboardGerente
    else PortalCliente
  }

  /**
   * As written, a logged-in user sent with `next=//exemplo.invalid/x` is
   * redirected to that other host.
   */
  lemma LoginLevaParaOutroHost(u: Usuario, form: Campos)
    ensures DestinoApos(u, SafeNextUrl(map["next" := "//exemplo.invalid/x"], form)) == Proximo("//exemplo.invalid/x")
  {
    assert Texto(map["next" := "//exemplo.invalid/x"], "next") == "//exemplo.invalid/x";
  }

  /** With the corrected check, a login only ever redirects to a path on this site. */
  lemma DestinoSempreLocal(u: Usuario, args: Campos, form: Campos)
    ensures DestinoApos(u, SafeNextUrlLocal(args, form)).Proximo? ==>
              CaminhoLocal(DestinoApos(u, SafeNextUrlLocal(args, form)).url)
  {
  }

  datatype SaidaLogin =
    | Recusado(next: Option<string>)    // the login page again, keeping a safe "next"
    | Entrou(destino: Destino)

  function ValorClienteId(c: Option<int>): PyValue {
    if c.Some? then PyInt(c.value) else PyNone
  }

  /** The session entries login writes over the current session. */
  function SessaoApos(sessao: Dict, u: Usuario): (s: Dict)
    ensures s.Keys == sessao.Keys + {"user_id", "user_nome", "user_tipo", "cliente_id"}
    ensures s["user_id"] == PyInt(u.id) && s["user_tipo"] == PyStr(u.tipo)
    ensures s["user_nome"] == PyStr(u.nome) && s["cliente_id"] == ValorClienteId(u.clienteId)
    ensures forall k :: k in sessao && k !in {"user_id", "user_nome", "user_tipo", "cliente_id"} ==> s[k] == sessao[k]
  {
    sessao["user_id" := PyInt(u.id)]["user_nome" := PyStr(u.nome)]
          ["user_tipo" := PyStr(u.tipo)]["cliente_id" := ValorClienteId(u.clienteId)]
  }

  /**
   * After login the session passes `login_required`, and the staff-only
   * guard lets the user in exactly when the user is staff.
   */
  lemma LoginAbreSessao<A, T>(sessao: Dict, u: Usuario, view: A -> T, args: A)
    ensures Decorators.LoginRequired(view, SessaoApos(sessao, u), args) == Decorators.Executa(view(args))
    ensures Decorators.AreaInterna(view, SessaoApos(sessao, u), args).Executa? <==> IsInterno(u)
  {
    var s := SessaoApos(sessao, u);
    assert Get(s, "user_tipo") == PyStr(u.tipo);
  }

  /** The Flask session of one browser. */
  class Sessao {
    var dados: Dict

    constructor (dados: Dict)
      ensures this.dados == dados
    {
      this.dados := dados;
    }

    /**
     * POST /login with the corrected "next" check `SafeNextUrlLocal` (the
     * source calls the written `_safe_next_url()`, which lets "//host"
     * through): the address is normalised before the password check; on
     * failure nothing is written, on success the four session entries are.
     */
    method Login(form: Campos, args: Campos, autenticar: (string, string) -> Option<Usuario>)
      returns (r: SaidaLogin)
      modifies this
      ensures var u := autenticar(NormalizarEmail(Texto(form, "email")), Texto(form, "senha"));
              && (u.None? ==> r == Recusado(SafeNextUrlLocal(args, form)) && dados == old(dados))
              && (u.Some? ==> r == Entrou(DestinoApos(u.value, SafeNextUrlLocal(args, form)))
                              && dados == SessaoApos(old(dados), u.value))
    {
      var email := NormalizarEmail(Texto(form, "email"));
      var senha := Texto(form, "senha");
      var usuario := autenticar(email, senha);
      if usuario.None? {
        return Recusado(SafeNextUrlLocal(args, form));
      }
      var u := usuario.value;
      dados := dados["user_id" := PyInt(u.id)];
      dados := dados["user_nome" := PyStr(u.nome)];
      dados := dados["user_tipo" := PyStr(u.tipo)];
      dados := dados["cliente_id" := ValorClienteId(u.clienteId)];
      var nxt := SafeNextUrlLocal(args, form);
      if nxt.Some? && nxt.value != "" {
        return Entrou(Proximo(nxt.value));
      }
      if IsInterno(u) {
        return Entrou(DashboardGerente);
      }
      return Entrou(PortalCliente);
    }

    /** GET /logout: the session is emptied, so every guarded route sends to login. */
    method Logout()
      modifies this
      ensures dados == map[]
    {
      dados := map[];
    }
  }

  // ---------------------------------------------------------------------
  // Open registration
  // ---------------------------------------------------------------------

  datatype SaidaCadastro = CamposVazios | SenhasDiferentes | EmailEmUso | ContaCriada

  function NomeCadastro(form: Campos): string {
    Strip(Texto(form, "nome"))
  }

  function EmailCadastro(form: Campos): string {
    NormalizarEmail(Texto(form, "email"))
  }

  /** The checks of POST /register, in the order the handler makes them. */
  function ValidarCadastro(form: Campos, usuarios: seq<Usuario>): (r: SaidaCadastro)
    ensures r == CamposVazios <==>
              NomeCadastro(form) == "" || EmailCadastro(form) == "" || Texto(form, "senha") == ""
    ensures r == SenhasDiferentes <==>
              NomeCadastro(form) != "" && EmailCadastro(form) != "" && Texto(form, "senha") != ""
              && Texto(form, "senha") != Texto(form, "confirmar")
    ensures r == EmailEmUso <==>
              NomeCadastro(form) != "" && EmailCadastro(form) != "" && Texto(form, "senha") != ""
              && Texto(form, "senha") == Texto(form, "confirmar")
              && exists u :: u in usuarios && u.email == EmailCadastro(form)
  {
    if NomeCadastro(form) == "" || EmailCadastro(form) == "" || Texto(form, "senha") == "" then CamposVazios
    else if Texto(form, "senha") != Texto(form, "confirmar") then SenhasDiferentes
    else if Contas.BuscarPorEmail(usuarios, EmailCadastro(form)).Some? then EmailEmUso
    else ContaCriada
  }

  /** The user row registration creates: a "cliente" linked to its new client. */
  function UsuarioCadastrado(form: Campos, id: int, clienteId: int): Usuario {
    Usuario(id, NomeCadastro(form), EmailCadastro(form), "cliente", true, Some(clienteId))
  }

  /** Once an account exists, the same form is refused as a duplicate. */
  lemma CadastroRepetidoRecusado(form: Campos, usuarios: seq<Usuario>, id: int, clienteId: int)
    requires ValidarCadastro(form, usuarios) == ContaCriada
    ensures ValidarCadastro(form, usuarios + [UsuarioCadastrado(form, id, clienteId)]) == EmailEmUso
  {
    var u := UsuarioCadastrado(form, id, clienteId);
    assert u in usuarios + [u];
  }

  /**
   * POST /register: on success exactly one "PF" client and one "cliente"
   * user linked to it are added; on any refusal nothing changes.
   */
  method Registrar(t: Contas.Tabela, form: Campos) returns (r: SaidaCadastro)
    requires t.Valid()
    modifies t
    ensures t.Valid()
    ensures r == ValidarCadastro(form, old(t.usuarios))
    ensures r != ContaCriada ==>
              t.clientes == old(t.clientes) && t.usuarios == old(t.usuarios) && t.senhas == old(t.senhas)
    ensures r == ContaCriada ==>
              && t.clientes == old(t.clientes) + [Cliente(old(t.proximoClienteId), NomeCadastro(form), "PF", Some(EmailCadastro(form)), true)]
              && t.usuarios == old(t.usuarios) + [UsuarioCadastrado(form, old(t.proximoUsuarioId), old(t.proximoClienteId))]
              && t.senhas == old(t.senhas)[old(t.proximoUsuarioId) := Texto(form, "senha")]
  {
    r := ValidarCadastro(form, t.usuarios);
    if r != ContaCriada {
      return;
    }
    var nome := NomeCadastro(form);
    var email := EmailCadastro(form);
    var clienteId := t.proximoClienteId;
    t.clientes := t.clientes + [Cliente(clienteId, nome, "PF", Some(email), true)];
    t.proximoClienteId := clienteId + 1;
    var usuario := UsuarioCadastrado(form, t.proximoUsuarioId, clienteId);
    Contas.AcrescentarValido(t.usuarios, t.proximoUsuarioId, usuario);
    t.usuarios := t.usuarios + [usuario];
    t.senhas := t.senhas[usuario.id := Texto(form, "senha")];
    t.proximoUsuarioId := t.proximoUsuarioId + 1;
  }

  // ---------------------------------------------------------------------
  // Admin password reset
  // ---------------------------------------------------------------------

  const TokenReset: string := "NETTO123RESET"
  const EmailAdmin: string := "admin@admin.com"
  const SenhaAdmin: string := "admin123"

  /**
   * GET /internal/reset-admin: 403 unless the token is the fixed one;
   * otherwise the admin account exists afterwards, created when missing,
   * and its password is the fixed one.
   */
  method ResetAdmin(t: Contas.Tabela, token: Option<string>) returns (s: Status)
    requires t.Valid()
    modifies t
    ensures t.Valid()
    ensures s == Forbidden403 <==> token != Some(TokenReset)
    ensures s != Forbidden403 ==> s == Ok200
    ensures s == Forbidden403 ==>
              t.usuarios == old(t.usuarios) && t.senhas == old(t.senhas) && t.proximoUsuarioId == old(t.proximoUsuarioId)
    ensures s == Ok200 ==>
              exists u :: u in t.usuarios && u.email == EmailAdmin && u.id in t.senhas && t.senhas[u.id] == SenhaAdmin
    // only the admin's password is rewritten
    ensures s == Ok200 && Contas.BuscarPorEmail(old(t.usuarios), EmailAdmin).Some? ==>
              t.senhas == old(t.senhas)[Contas.BuscarPorEmail(old(t.usuarios), EmailAdmin).value.id := SenhaAdmin]
              && t.proximoUsuarioId == old(t.proximoUsuarioId)
    ensures s == Ok200 && Contas.BuscarPorEmail(old(t.usuarios), EmailAdmin).None? ==>
              t.senhas == old(t.senhas)[old(t.proximoUsuarioId) := SenhaAdmin]
              && t.proximoUsuarioId == old(t.proximoUsuarioId) + 1
    ensures t.proximoClienteId == old(t.proximoClienteId)
    ensures s == Ok200 && Contas.BuscarPorEmail(old(t.usuarios), EmailAdmin).Some? ==> t.usuarios == old(t.usuarios)
    ensures s == Ok200 && Contas.BuscarPorEmail(old(t.usuarios), EmailAdmin).None? ==>
              t.usuarios == old(t.usuarios) + [Usuario(old(t.proximoUsuarioId), "Administrador", EmailAdmin, "admin", true, None)]
    ensures t.clientes == old(t.clientes)
  {
    if token != Some(TokenReset) {
      return Forbidden403;
    }
    var admin := Contas.BuscarPorEmail(t.usuarios, EmailAdmin);
    var u: Usuario;
    if admin.None? {
      u := Usuario(t.proximoUsuarioId, "Administrador", EmailAdmin, "admin", true, None);
      Contas.AcrescentarValido(t.usuarios, t.proximoUsuarioId, u);
      t.usuarios := t.usuarios + [u];
      t.proximoUsuarioId := t.proximoUsuarioId + 1;
    } else {
      u := admin.value;
    }
    t.senhas := t.senhas[u.id := SenhaAdmin];
    assert u in t.usuarios;
    s := Ok200;
  }
}
