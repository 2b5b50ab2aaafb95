/**
 * The ledger entry form ("nova movimentação"): loading an entry for editing,
 * the sign rule that makes an outflow negative and an inflow positive, and
 * the request that creates or updates the entry.
 */
module NovaMovimentacao {
  import opened Common
  import opened Text
  import OfflineQueue

  /**
   * An existing entry passed in for editing. Its `valor` is the number as
   * `String` writes it, so the form can show it and read it back.
   */
  datatype Movimentacao = Movimentacao(
    id: string, descricao: string, valor: Literal, categoria: Option<string>,
    observacao: Option<string>, caixaId: Option<string>)

  /** The form's state. */
  datatype Form = Form(
    idEdicao: Option<string>, valor: string, descricao: string, tipo: Tipo,
    categoria: string, observacao: string)

  /** The form as a new entry starts: empty, an inflow, in category "Geral". */
  const NewForm := Form(None, "", "", Entrada, "Geral", "")

  /**
   * The edit-mode effect: the form shows the entry's absolute value, is an
   * outflow exactly when the value is negative, and falls back to "Geral" and
   * "" for a missing category and observation. Without an entry it stays new.
   */
  function LoadEdit(movimentacao: Option<Movimentacao>): (form: Form)
    requires movimentacao.Some? ==> movimentacao.value.valor.Valid()
    ensures movimentacao.None? ==> form == NewForm
    ensures movimentacao.Some? ==>
      var m := movimentacao.value;
      && form.idEdicao == Some(m.id)
      && form.descricao == m.descricao
      && form.valor == m.valor.Abs().Show()
      && (form.tipo == Saida <==> m.valor.Value() < 0.0)
      && form.categoria == OrElse(m.categoria, "Geral")
      && form.observacao == OrElse(m.observacao, "")
  {
    if movimentacao.None? then NewForm
    else
      var m := movimentacao.value;
      Form(Some(m.id), m.valor.Abs().Show(), m.descricao, if m.valor.Value() < 0.0 then Saida else Entrada,
           OrElse(m.categoria, "Geral"), OrElse(m.observacao, ""))
  }

  /**
   * The sign rule: an outflow sends `-Math.abs(v)`, an inflow `Math.abs(v)`,
   * whatever sign was typed; NaN stays NaN.
   */
  function SignRule(tipo: Tipo, v: Option<real>): (r: Option<real>)
    ensures r.None? <==> v.None?
    ensures r.Some? ==> Abs(r.value) == Abs(v.value)
    ensures r.Some? && tipo == Saida ==> r.value <= 0.0
    ensures r.Some? && tipo == Entrada ==> r.value >= 0.0
  {
    if v.None? then None
    else if tipo == Saida then Some(-Abs(v.value))
    else Some(Abs(v.value))
  }

  /** Applying the sign rule twice is applying it once. */
  lemma SignRuleIdempotent(tipo: Tipo, v: Option<real>)
    ensures SignRule(tipo, SignRule(tipo, v)) == SignRule(tipo, v)
  {
  }

  /** The JSON body; a `valor` of `None` is NaN, which `JSON.stringify` writes as null. */
  datatype Payload = Payload(
    caixaId: Option<string>, descricao: string, valor: Option<real>, tipo: Tipo,
    categoria: string, observacao: string)

  datatype Request = Request(verb: Verb, url: string, payload: Payload)

  datatype SaveOutcome = Refused | Sent(request: Request)

  /** `caixaId || (movimentacao ? movimentacao.caixaId : null)`. */
  function TargetCaixa(routeCaixaId: Option<string>, movimentacao: Option<Movimentacao>): (r: Option<string>)
    ensures Truthy(routeCaixaId) ==> r == routeCaixaId
    ensures !Truthy(routeCaixaId) && movimentacao.Some? ==> r == movimentacao.value.caixaId
    ensures !Truthy(routeCaixaId) && movimentacao.None? ==> r == None
  {
    if Truthy(routeCaixaId) then routeCaixaId
    else if movimentacao.Some? then movimentacao.value.caixaId
    else None
  }

  /**
   * `handleSalvar`: refuses an empty amount or description; otherwise sends
   * the signed amount (NaN when it does not parse: there is no check), with a
   * PUT to `/movimentacoes/{id}` when editing and a POST to `/movimentacoes` otherwise.
   */
  function HandleSalvar(form: Form, routeCaixaId: Option<string>, movimentacao: Option<Movimentacao>): (outcome: SaveOutcome)
    ensures outcome == Refused <==> form.valor == "" || form.descricao == ""
    ensures outcome.Sent? ==>
      && outcome.request.payload.valor == SignRule(form.tipo, ParseAmount(form.valor))
      && outcome.request.payload.caixaId == TargetCaixa(routeCaixaId, movimentacao)
      && outcome.request.payload.categoria == form.categoria
      && outcome.request.payload.descricao == form.descricao
      && outcome.request.payload.tipo == form.tipo
      && outcome.request.payload.observacao == form.observacao
    ensures outcome.Sent? && Truthy(form.idEdicao) ==>
      outcome.request.verb == Put && outcome.request.url == "/movimentacoes/" + form.idEdicao.value
    ensures outcome.Sent? && !Truthy(form.idEdicao) ==>
      outcome.request.verb == Post && outcome.request.url == "/movimentacoes"
  {
    if form.valor == "" || form.descricao == "" then Refused
    else
      var payload := Payload(TargetCaixa(routeCaixaId, movimentacao), form.descricao,
                             SignRule(form.tipo, ParseAmount(form.valor)), form.tipo, form.categoria, form.observacao);
      if Truthy(form.idEdicao) then Sent(Request(Put, "/movimentacoes/" + form.idEdicao.value, payload))
      else Sent(Request(Post, "/movimentacoes", payload))
  }

  /** A new entry, and an edited entry without a category, are saved in category "Geral". */
  lemma CategoryDefault(movimentacao: Option<Movimentacao>)
    requires movimentacao.Some? ==> movimentacao.value.valor.Valid()
    requires movimentacao.Some? ==> !Truthy(movimentacao.value.categoria)
    ensures LoadEdit(movimentacao).categoria == "Geral"
  {
  }

  /**
   * Saving an entry loaded for editing without touching the form sends back
   * its original value, sign included, with a PUT to that entry.
   */
  lemma EditRoundTrip(m: Movimentacao, routeCaixaId: Option<string>)
    requires m.valor.Valid() && m.id != "" && m.descricao != ""
    ensures var outcome := HandleSalvar(LoadEdit(Some(m)), routeCaixaId, Some(m));
      && outcome.Sent?
      && outcome.request.payload.valor == Some(m.valor.Value())
      && outcome.request.verb == Put
      && outcome.request.url == "/movimentacoes/" + m.id
  {
    var shown := m.valor.Abs();
    assert shown.Valid();
    NoCommaInShow(shown);
    ReplaceFirstAbsent(shown.Show(), ',', '.');
    ParseShow(shown);
    assert shown.Show() != "";
    assert shown.Value() == m.valor.Magnitude();
  }

  /**
   * The offline form applies the type differently: it multiplies by -1 for an
   * outflow and keeps an inflow as typed. For a non-negative amount the two
   * agree; a negative amount typed offline keeps a sign the online rule would correct.
   */
  lemma OfflineSignAgrees(tipo: Tipo, v: real)
    requires v >= 0.0
    ensures Some(OfflineQueue.OfflineValue(tipo, v)) == SignRule(tipo, Some(v))
  {
  }

  lemma OfflineSignDiffers(tipo: Tipo, v: real)
    requires v < 0.0
    ensures Some(OfflineQueue.OfflineValue(tipo, v)) != SignRule(tipo, Some(v))
    ensures tipo == Saida ==> OfflineQueue.OfflineValue(tipo, v) > 0.0
    ensures tipo == Entrada ==> OfflineQueue.OfflineValue(tipo, v) < 0.0
  {
  }
}
