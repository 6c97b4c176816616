/**
 * The session guards of gerenciador_ativos/auth/decorators.py. A decorated
 * view is modelled as the view function, the session it runs under and the
 * arguments of the request; the guard either calls the view or redirects.
 */
module Decorators {
  import opened Py

  /** What a guarded route answers. */
  datatype Acesso<+T> =
    | Executa(valor: T)       // the view ran; its result is returned as it is
    | RedirecionaLogin        // redirect to auth.login
    | RedirecionaHome         // redirect to dashboards.home

  /** `login_required(view)(*args)`: the view runs exactly when "user_id" is a session key. */
  function LoginRequired<A, T>(view: A -> T, sessao: Dict, args: A): (r: Acesso<T>)
    ensures r.Executa? <==> "user_id" in sessao
    ensures r.Executa? ==> r.valor == view(args)
    ensures !r.Executa? ==> r == RedirecionaLogin
  {
    if "user_id" !in sessao then RedirecionaLogin else Executa(view(args))
  }

  /** `user_tipo in roles` for the value `session.get("user_tipo")`. */
  predicate TipoPermitido(tipo: PyValue, roles: seq<string>) {
    tipo.PyStr? && tipo.s in roles
  }

  /**
   * `role_required(roles)(view)(*args)`: the view runs exactly when the
   * session's "user_tipo" is one of the roles; an absent tipo is refused.
   */
  function RoleRequired<A, T>(roles: seq<string>, view: A -> T, sessao: Dict, args: A): (r: Acesso<T>)
    ensures r.Executa? <==> "user_tipo" in sessao && TipoPermitido(sessao["user_tipo"], roles)
    ensures "user_tipo" !in sessao ==> r == RedirecionaHome
    ensures r.Executa? ==> r.valor == view(args)
    ensures !r.Executa? ==> r == RedirecionaHome
  {
    if !TipoPermitido(Get(sessao, "user_tipo"), roles) then RedirecionaHome else Executa(view(args))
  }

  /** `gerente_required(view)`: admins and managers only. */
  function GerenteRequired<A, T>(view: A -> T, sessao: Dict, args: A): (r: Acesso<T>)
    ensures r.Executa? <==> Get(sessao, "user_tipo") in {PyStr("admin"), PyStr("gerente")}
    ensures r.Executa? ==> r.valor == view(args)
    ensures !r.Executa? ==> r == RedirecionaHome
  {
    RoleRequired(["admin", "gerente"], view, sessao, args)
  }

  /**
   * `@login_required` stacked over `@role_required(["admin", "gerente"])`,
   * as on the user-management routes: the login check comes first.
   */
  function AreaInterna<A, T>(view: A -> T, sessao: Dict, args: A): (r: Acesso<T>)
    ensures "user_id" !in sessao ==> r == RedirecionaLogin
    ensures "user_id" in sessao ==> r == GerenteRequired(view, sessao, args)
    ensures r.Executa? <==> "user_id" in sessao && Get(sessao, "user_tipo") in {PyStr("admin"), PyStr("gerente")}
  {
    match LoginRequired((x: A) => RoleRequired(["admin", "gerente"], view, sessao, x), sessao, args)
    case Executa(porPapel) => porPapel
    case _ => RedirecionaLogin
  }
}
