/**
 * The statement screen ("extrato"): its title and the endpoint it reads from,
 * chosen by the route parameters, the balance summed over what is listed, the
 * add button's condition and the reload after a deletion.
 */
module Extrato {
  import opened Common
  import Caixas

  /** The route parameters; any of them may be missing. */
  datatype Params = Params(caixaId: Option<string>, caixaNome: Option<string>, filtro: Option<string>)

  /** `tituloTela`. */
  function TituloTela(p: Params): (titulo: string)
    ensures titulo == "Extrato Geral" <==> p.caixaNome == Some("Principal") || p.filtro == Some("todos")
    ensures titulo != "Extrato Geral" ==> titulo == "Extrato: " + OrElse(p.caixaNome, "Caixa")
  {
    if p.caixaNome == Some("Principal") || p.filtro == Some("todos") then "Extrato Geral"
    else
      var t := "Extrato: " + OrElse(p.caixaNome, "Caixa");
      assert t[7] != "Extrato Geral"[7];
      t
  }

  /** The URL `carregarMovimentacoes` fetches. */
  function Url(p: Params): (url: string)
    ensures p.caixaNome == Some("Principal") ==> url == "/extrato/principal"
    ensures p.caixaNome != Some("Principal") && Truthy(p.caixaId) ==> url == "/extrato/" + p.caixaId.value
    ensures url == "/extrato" <==> p.caixaNome != Some("Principal") && !Truthy(p.caixaId)
  {
    if p.caixaNome == Some("Principal") then "/extrato/principal"
    else if Truthy(p.caixaId) then "/extrato/" + p.caixaId.value
    else "/extrato"
  }

  /** A listed entry: its id and `Number(item.valor)`, `None` when that is NaN. */
  datatype Item = Item(id: string, valor: Option<real>)

  /** `Number(item.valor) || 0`. */
  function Valor(item: Item): real
  {
    if item.valor.Some? then item.valor.value else 0.0
  }

  /** `reduce((acc, item) => acc + (Number(item.valor) || 0), 0)`. */
  function Saldo(items: seq<Item>): real
  {
    if items == [] then 0.0 else Saldo(items[..|items| - 1]) + Valor(items[|items| - 1])
  }

  /** The balance of two lists put together is the sum of their balances. */
  lemma {:induction false} SaldoAppend(a: seq<Item>, b: seq<Item>)
    ensures Saldo(a + b) == Saldo(a) + Saldo(b)
  {
    if b != [] {
      assert (a + b)[..|a + b| - 1] == a + b[..|b| - 1];
      SaldoAppend(a, b[..|b| - 1]);
    } else {
      assert a + b == a;
    }
  }

  /** Entries without a numeric value add nothing to the balance. */
  lemma {:induction false} SaldoIgnoresNaN(items: seq<Item>)
    requires forall i :: 0 <= i < |items| ==> items[i].valor.None?
    ensures Saldo(items) == 0.0
  {
    if items != [] {
      SaldoIgnoresNaN(items[..|items| - 1]);
    }
  }

  /** The list shown and `saldoListado`. */
  datatype State = State(movimentacoes: seq<Item>, saldoListado: real)

  /** `carregarMovimentacoes`: a listed response is shown and summed; anything else shows nothing with a balance of 0. */
  function Carregar(data: Json<Item>): (state: State)
    ensures data.JsonArray? ==> state.movimentacoes == data.items && state.saldoListado == Saldo(data.items)
    ensures data.JsonOther? ==> state == State([], 0.0)
  {
    if data.JsonArray? then State(data.items, Saldo(data.items)) else State([], 0.0)
  }

  /** The add button shows for a given box other than the main one. */
  predicate MostraAdicionar(p: Params)
  {
    Truthy(p.caixaId) && p.caixaNome != Some("Principal")
  }

  /**
   * The add button shows exactly on the statement of one box other than the one
   * named "Principal": never on the general statement, and when it shows, the
   * statement listed is that box's own.
   */
  lemma AddButtonOnBoxStatement(p: Params)
    ensures MostraAdicionar(p) <==> Url(p) != "/extrato" && p.caixaNome != Some("Principal")
    ensures MostraAdicionar(p) ==> Url(p) == "/extrato/" + p.caixaId.value
    ensures MostraAdicionar(p) ==> (TituloTela(p) == "Extrato Geral" <==> p.filtro == Some("todos"))
  {
  }

  /** The reply to a deletion: its status and the `error` field of its body. */
  datatype Response = Response(ok: bool, error: Option<string>)

  /** After a deletion: reload with the same parameters, or show a message. */
  datatype Effect = Reload(url: string) | Alert(message: string)

  /**
   * A deletion the server accepts reloads the list from the same URL; a
   * refused one shows the server's `error` or a default message; no reply
   * shows the default message.
   */
  function AposExcluir(p: Params, response: Option<Response>): (effect: Effect)
    ensures effect.Reload? <==> response.Some? && response.value.ok
    ensures effect.Reload? ==> effect.url == Url(p)
    ensures response.Some? && !response.value.ok ==>
      effect == Alert(OrElse(response.value.error, "Não foi possível excluir a movimentação."))
    ensures response.None? ==> effect == Alert("Não foi possível excluir a movimentação.")
  {
    if response.Some? && response.value.ok then Reload(Url(p))
    else if response.Some? then Alert(OrElse(response.value.error, "Não foi possível excluir a movimentação."))
    else Alert("Não foi possível excluir a movimentação.")
  }

  /** The parameters a box of the overview opens its statement with. */
  function FromCaixa(c: Caixas.Caixa): (p: Params)
    ensures p.caixaId == Some(c.id) && p.filtro == None
  {
    var q := Caixas.AbrirCaixa(c);
    Params(Some(q.caixaId), Some(q.caixaNome), None)
  }

  /**
   * Opened from the overview, the main box reads `/extrato/{id}` under the
   * title "Extrato: Geral" and shows the add button: the statement's
   * "Principal" branches are never taken from there.
   */
  lemma PrincipalFromOverview(c: Caixas.Caixa)
    requires Caixas.IsPrincipal(c) && c.id != ""
    ensures TituloTela(FromCaixa(c)) == "Extrato: Geral"
    ensures Url(FromCaixa(c)) == "/extrato/" + c.id
    ensures MostraAdicionar(FromCaixa(c))
  {
    Caixas.NeverOpensAsPrincipal(c);
  }

  /** Every box opened from the overview with an id reads its own statement and shows the add button. */
  lemma EveryBoxByItsId(c: Caixas.Caixa)
    requires c.id != ""
    ensures Url(FromCaixa(c)) == "/extrato/" + c.id
    ensures MostraAdicionar(FromCaixa(c))
  {
    Caixas.NeverOpensAsPrincipal(c);
  }
}
