/**
 * The daily close /admin/cron/fechamento-diario (admin/cron.py): for every
 * active asset, one consumption record per day, inserted only when the
 * asset has none for that day yet.
 *
 * The day (`hoje`) is a parameter, a day number.
 */
module Cron {
  import opened Py
  import Horas

  /** The asset columns the close reads. */
  datatype AtivoCron = AtivoCron(
    id: int,
    ativo: bool,
    horasOffset: Option<real>,
    horasSistema: Option<real>,
    consumoLph: Option<real>)

  /** The key of the daily table: one record per asset and day. */
  datatype Chave = Chave(ativoId: int, dia: int)

  /** A daily record. */
  datatype Registro = Registro(horasMotor: real, consumoLph: real, consumoTotal: real)

  /** `Ativo.query.filter_by(ativo=True)` */
  function Ativos(todos: seq<AtivoCron>): (r: seq<AtivoCron>)
    ensures |r| <= |todos|
    ensures forall a :: a in r <==> a in todos && a.ativo
  {
    if todos == [] then []
    else (if todos[0].ativo then [todos[0]] else []) + Ativos(todos[1..])
  }

  /** The filter keeps the order of the rows: it distributes over concatenation. */
  lemma {:induction false} AtivosConcatena(a: seq<AtivoCron>, b: seq<AtivoCron>)
    ensures Ativos(a + b) == Ativos(a) + Ativos(b)
  {
    if a != [] {
      assert (a + b)[0] == a[0];
      assert (a + b)[1..] == a[1..] + b;
      AtivosConcatena(a[1..], b);
    } else {
      assert a + b == b;
    }
  }

  /** The record of an asset: hours as offset plus system hours, and hours times rate. */
  function RegistroDe(a: AtivoCron): (r: Registro)
    ensures r.horasMotor == Horas.SomaHoras(a.horasOffset, a.horasSistema)
    ensures r.consumoLph == OrZero(a.consumoLph)
    ensures r.consumoTotal == Horas.Litros(r.horasMotor, r.consumoLph)
    ensures Falsy(a.consumoLph) ==> r.consumoTotal == 0.0
  {
    var horasMotor := Horas.SomaHoras(a.horasOffset, a.horasSistema);
    var consumoLph := OrZero(a.consumoLph);
    Registro(horasMotor, consumoLph, Horas.Litros(horasMotor, consumoLph))
  }

  /** One step of the loop: the asset's record for the day, unless one exists. */
  function Inserir(m: map<Chave, Registro>, a: AtivoCron, hoje: int): (r: map<Chave, Registro>)
    ensures Chave(a.id, hoje) in r
    ensures forall k :: k in m ==> k in r && r[k] == m[k]
    ensures forall k :: k in r ==> k in m || k == Chave(a.id, hoje)
  {
    if Chave(a.id, hoje) in m then m else m[Chave(a.id, hoje) := RegistroDe(a)]
  }

  /** The loop over the assets, in order. */
  function Fechar(m: map<Chave, Registro>, ativos: seq<AtivoCron>, hoje: int): map<Chave, Registro>
    decreases |ativos|
  {
    if ativos == [] then m else Fechar(Inserir(m, ativos[0], hoje), ativos[1..], hoje)
  }

  /** Records that exist before the close are kept as they are. */
  lemma {:induction false} FecharPreserva(m: map<Chave, Registro>, ativos: seq<AtivoCron>, hoje: int)
    ensures forall k :: k in m ==> k in Fechar(m, ativos, hoje) && Fechar(m, ativos, hoje)[k] == m[k]
    decreases |ativos|
  {
    if ativos != [] {
      FecharPreserva(Inserir(m, ativos[0], hoje), ativos[1..], hoje);
    }
  }

  /** The close adds only today's records of the assets it went over, and each of them. */
  lemma {:induction false} FecharChaves(m: map<Chave, Registro>, ativos: seq<AtivoCron>, hoje: int)
    ensures forall k :: k in Fechar(m, ativos, hoje) <==>
              k in m || (k.dia == hoje && exists a :: a in ativos && a.id == k.ativoId)
    decreases |ativos|
  {
    if ativos != [] {
      var m1 := Inserir(m, ativos[0], hoje);
      FecharChaves(m1, ativos[1..], hoje);
      forall k
        ensures k in Fechar(m, ativos, hoje) <==>
                  k in m || (k.dia == hoje && exists a :: a in ativos && a.id == k.ativoId)
      {
        if k.dia == hoje && (exists a :: a in ativos && a.id == k.ativoId) {
          var a :| a in ativos && a.id == k.ativoId;
          if a != ativos[0] {
            assert a in ativos[1..];
          }
        }
        if exists a :: a in ativos[1..] && a.id == k.ativoId {
          var a :| a in ativos[1..] && a.id == k.ativoId;
          assert a in ativos;
        }
      }
    }
  }

  /** Each asset without a record for the day gets its own record. */
  lemma {:induction false} FecharNovos(m: map<Chave, Registro>, ativos: seq<AtivoCron>, hoje: int, a: AtivoCron)
    requires a in ativos && Chave(a.id, hoje) !in m
    requires forall b :: b in ativos && b.id == a.id ==> b == a
    ensures Chave(a.id, hoje) in Fechar(m, ativos, hoje)
            && Fechar(m, ativos, hoje)[Chave(a.id, hoje)] == RegistroDe(a)
    decreases |ativos|
  {
    var m1 := Inserir(m, ativos[0], hoje);
    FecharChaves(m, ativos, hoje);
    if ativos[0] == a {
      FecharPreserva(m1, ativos[1..], hoje);
    } else {
      assert ativos[0].id != a.id;
      FecharNovos(m1, ativos[1..], hoje, a);
    }
  }

  /** A second close on the same day adds nothing and changes nothing. */
  lemma FecharIdempotente(m: map<Chave, Registro>, ativos: seq<AtivoCron>, hoje: int)
    ensures Fechar(Fechar(m, ativos, hoje), ativos, hoje) == Fechar(m, ativos, hoje)
  {
    var m1 := Fechar(m, ativos, hoje);
    FecharChaves(m, ativos, hoje);
    FecharSemNovos(m1, ativos, hoje);
  }

  lemma {:induction false} FecharSemNovos(m: map<Chave, Registro>, ativos: seq<AtivoCron>, hoje: int)
    requires forall a :: a in ativos ==> Chave(a.id, hoje) in m
    ensures Fechar(m, ativos, hoje) == m
    decreases |ativos|
  {
    if ativos != [] {
      assert Inserir(m, ativos[0], hoje) == m;
      FecharSemNovos(m, ativos[1..], hoje);
    }
  }

  /** The daily consumption table. */
  class TabelaConsumo {
    var registros: map<Chave, Registro>

    constructor (registros: map<Chave, Registro>)
      ensures this.registros == registros
    {
      this.registros := registros;
    }

    /**
     * `fechamento_diario()`: the records of the day for the active assets,
     * and the number of active assets (not the number of records added).
     */
    method FechamentoDiario(todos: seq<AtivoCron>, hoje: int) returns (quantidade: int)
      modifies this
      ensures registros == Fechar(old(registros), Ativos(todos), hoje)
      ensures quantidade == |Ativos(todos)|
    {
      var ativos := Ativos(todos);
      for i := 0 to |ativos|
        invariant Fechar(registros, ativos[i..], hoje) == Fechar(old(registros), ativos, hoje)
      {
        var ativo := ativos[i];
        assert ativos[i..][1..] == ativos[i + 1..];
        var chave := Chave(ativo.id, hoje);
        if chave in registros {
          continue;
        }
        registros := registros[chave := RegistroDe(ativo)];
      }
      quantidade := |ativos|;
    }
  }
}
