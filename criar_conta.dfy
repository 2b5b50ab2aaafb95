/**
 * The payable form ("agendar pagamento"): the amount field's sanitiser, the
 * edit-mode load, the validation and the body sent to create or update a payable.
 */
module CriarConta {
  import opened Common
  import opened Text

  /** The form's state; `dataVencimento` is a timestamp (a `Date` object is always truthy). */
  datatype Form = Form(
    idEdicao: Option<string>, instituicao: string, descricao: string, observacao: string,
    valor: string, dataVencimento: int, status: string)

  /** `limparCampos`: every field back to its default, the due date to now. */
  function LimparCampos(now: int): (form: Form)
    ensures form.idEdicao == None && form.valor == "" && form.status == "pendente" && form.dataVencimento == now
    ensures form.instituicao == "" && form.descricao == "" && form.observacao == ""
  {
    Form(None, "", "", "", "", now, "pendente")
  }

  // ----- the amount field -----

  /** `text.replace(/[^0-9,]/g, "").replace(",", ".")`: digits and commas kept, then the first comma made a point. */
  function SanitiseValor(text: string): (r: string)
    ensures |r| <= |text|
    ensures AllIn(text, Digits) ==> r == text
  {
    var kept := Filter(text, DigitsAndComma);
    ReplaceFirstSpec(kept, ',', '.');
    assert AllIn(text, Digits) ==> ReplaceFirst(kept, ',', '.') == text by {
      if AllIn(text, Digits) {
        FilterKeepsAllowed(text, DigitsAndComma);
        ReplaceFirstAbsent(text, ',', '.');
      }
    }
    ReplaceFirst(kept, ',', '.')
  }

  /** At most one character of `s` is `c`. */
  predicate AtMostOne(s: string, c: char)
  {
    forall i, j :: 0 <= i < j < |s| && s[i] == c ==> s[j] != c
  }

  /** The sanitised amount holds only digits, commas and at most one point. */
  lemma SanitiseValorSpec(text: string)
    ensures AllIn(SanitiseValor(text), AmountChars)
    ensures AtMostOne(SanitiseValor(text), '.')
  {
    var kept := Filter(text, DigitsAndComma);
    var r := ReplaceFirst(kept, ',', '.');
    ReplaceFirstSpec(kept, ',', '.');
    var k := IndexOf(kept, ',');
    forall j | 0 <= j < |r|
      ensures r[j] in AmountChars && (r[j] == '.' ==> j == k)
    {
      assert kept[j] in DigitsAndComma;
    }
  }

  /**
   * The sanitised amount has a point exactly when the typed text had a comma,
   * and the point stands where the first comma was among the kept characters.
   */
  lemma SanitiseValorPoint(text: string)
    ensures forall j :: 0 <= j < |SanitiseValor(text)| && SanitiseValor(text)[j] == '.' ==>
      j == IndexOf(Filter(text, DigitsAndComma), ',')
    ensures '.' in SanitiseValor(text) <==> ',' in text
  {
    var kept := Filter(text, DigitsAndComma);
    var r := ReplaceFirst(kept, ',', '.');
    ReplaceFirstSpec(kept, ',', '.');
    IndexOfSpec(kept, ',');
    var k := IndexOf(kept, ',');
    assert forall j :: 0 <= j < |r| && r[j] == '.' ==> j == k by {
      forall j | 0 <= j < |r| && r[j] == '.'
        ensures j == k
      {
        assert kept[j] in DigitsAndComma;
      }
    }
    FilterCounts(text, DigitsAndComma);
    assert ',' in kept <==> ',' in text by {
      assert multiset(kept)[','] == multiset(text)[','];
    }
    if k < |kept| {
      assert r[k] == '.';
    }
  }

  /**
   * A point already in the field is dropped on the next keystroke: typing "5"
   * after "12." leaves "125", not "12.5".
   */
  lemma PointLostOnNextKeystroke()
    ensures SanitiseValor("12." + "5") == "125"
  {
    assert "12." + "5" == "12.5";
    var kept := Filter("12.5", DigitsAndComma);
    assert "12.5"[1..] == "2.5" && "2.5"[1..] == ".5" && ".5"[1..] == "5" && "5"[1..] == "";
    assert Filter("5", DigitsAndComma) == "5";
    assert Filter(".5", DigitsAndComma) == "5";
    assert Filter("2.5", DigitsAndComma) == "25";
    assert kept == "125";
    ReplaceFirstAbsent(kept, ',', '.');
  }

  /** A sanitised amount never parses to a negative number. */
  lemma SanitisedValorNonNegative(text: string)
    ensures ParseAmount(SanitiseValor(text)).Some? ==> ParseAmount(SanitiseValor(text)).value >= 0.0
  {
    SanitiseValorSpec(text);
    ParseAmountNonNegative(SanitiseValor(text));
  }

  // ----- edit mode -----

  /**
   * A payable passed in for editing. `valor` is the number as `String` writes
   * it; `dataVencimento` is `None` when missing or not a valid date.
   */
  datatype ContaParaEditar = ContaParaEditar(
    id: string, instituicao: Option<string>, descricao: Option<string>, observacao: Option<string>,
    valor: Option<Literal>, dataVencimento: Option<int>, status: Option<string>)
  {
    predicate Valid()
    {
      valor.Some? ==> valor.value.Valid()
    }
  }

  /** `valor.toString().replace(".", ",")` when the value is truthy (present and not 0), else "". */
  function ValorText(valor: Option<Literal>): string
    requires valor.Some? ==> valor.value.Valid()
  {
    if valor.Some? && valor.value.Value() != 0.0 then ReplaceFirst(valor.value.Show(), '.', ',') else ""
  }

  /**
   * The focus effect: with a payable, the form takes its fields (missing ones
   * blank, status "pendente", due date now when missing or invalid); without
   * one, the form is cleared.
   */
  function LoadEdit(conta: Option<ContaParaEditar>, now: int): (form: Form)
    requires conta.Some? ==> conta.value.Valid()
    ensures conta.None? ==> form == LimparCampos(now)
    ensures conta.Some? ==>
      var c := conta.value;
      && form.idEdicao == Some(c.id)
      && form.valor == ValorText(c.valor)
      && form.instituicao == OrElse(c.instituicao, "")
      && form.descricao == OrElse(c.descricao, "")
      && form.observacao == OrElse(c.observacao, "")
      && form.status == OrElse(c.status, "pendente")
      && form.dataVencimento == (if c.dataVencimento.Some? then c.dataVencimento.value else now)
  {
    if conta.None? then LimparCampos(now)
    else
      var c := conta.value;
      Form(Some(c.id), OrElse(c.instituicao, ""), OrElse(c.descricao, ""), OrElse(c.observacao, ""),
           ValorText(c.valor), if c.dataVencimento.Some? then c.dataVencimento.value else now,
           OrElse(c.status, "pendente"))
  }

  /** The amount shown for editing reads back as the payable's value when saved unchanged. */
  lemma EditValueRoundTrip(l: Literal)
    requires l.Valid() && l.Value() != 0.0
    ensures ParseAmount(ValorText(Some(l))) == Some(l.Value())
  {
    NoCommaInShow(l);
    ReplaceFirstInverse(l.Show(), '.', ',');
    ParseShow(l);
  }

  // ----- saving -----

  /** The JSON body; `observacao` is `None` when it is left out. */
  datatype Body = Body(
    instituicao: string, descricao: string, observacao: Option<string>, valor: real,
    dataVencimento: int, status: string)

  datatype Request = Request(verb: Verb, url: string, body: Body)

  datatype Refusal = MissingFields | InvalidValue

  datatype SaveOutcome = Refused(why: Refusal) | Sent(request: Request)

  /**
   * `handleSalvar`: refuses a missing institution, description or amount, then
   * an amount that does not parse; otherwise sends the parsed amount, leaving
   * out an empty observation, with a PUT to `/contas/{id}` when editing and a
   * POST to `/contas` otherwise.
   */
  function HandleSalvar(form: Form): (outcome: SaveOutcome)
    ensures outcome == Refused(MissingFields) <==>
      form.instituicao == "" || form.descricao == "" || form.valor == ""
    ensures outcome == Refused(InvalidValue) <==>
      form.instituicao != "" && form.descricao != "" && form.valor != "" && ParseAmount(form.valor).None?
    ensures outcome.Sent? ==>
      var body := outcome.request.body;
      && body.instituicao == form.instituicao && body.descricao == form.descricao
      && Some(body.valor) == ParseAmount(form.valor)
      && (body.observacao.None? <==> form.observacao == "")
      && (body.observacao.Some? ==> body.observacao.value == form.observacao)
      && body.status == form.status && body.dataVencimento == form.dataVencimento
    ensures outcome.Sent? && Truthy(form.idEdicao) ==>
      outcome.request.verb == Put && outcome.request.url == "/contas/" + form.idEdicao.value
    ensures outcome.Sent? && !Truthy(form.idEdicao) ==>
      outcome.request.verb == Post && outcome.request.url == "/contas"
  {
    if form.instituicao == "" || form.descricao == "" || form.valor == "" then Refused(MissingFields)
    else
      var valorNumerico := ParseAmount(form.valor);
      if valorNumerico.None? then Refused(InvalidValue)
      else
        var body := Body(form.instituicao, form.descricao, if form.observacao == "" then None else Some(form.observacao),
                         valorNumerico.value, form.dataVencimento, form.status);
        if Truthy(form.idEdicao) then Sent(Request(Put, "/contas/" + form.idEdicao.value, body))
        else Sent(Request(Post, "/contas", body))
  }

  /**
   * Saving a payable loaded for editing, unchanged, sends a PUT to it with its
   * own value, when it has an institution, a description and a non-zero value.
   */
  lemma EditSaveRoundTrip(c: ContaParaEditar, now: int)
    requires c.Valid() && c.id != ""
    requires Truthy(c.instituicao) && Truthy(c.descricao)
    requires c.valor.Some? && c.valor.value.Value() != 0.0
    ensures var outcome := HandleSalvar(LoadEdit(Some(c), now));
      && outcome.Sent?
      && outcome.request.verb == Put && outcome.request.url == "/contas/" + c.id
      && outcome.request.body.valor == c.valor.value.Value()
  {
    var l := c.valor.value;
    EditValueRoundTrip(l);
    assert ValorText(c.valor) != "";
  }
}
