/**
 * The key/value extras screen ("adicionais"): the list grouped by `grupo`
 * with its groups shown in sorted order, the edit modal and the request that
 * creates or updates an extra.
 */
module Adicionais {
  import opened Common
  import opened Text
  import opened Sorting

  /** An extra as the server lists it; `valor` is the number as `String` writes it. */
  datatype Adicional = Adicional(
    id: string, chave: string, valor: Option<Literal>, conteudo: Option<string>, grupo: Option<string>)

  // ----- grouping in carregarAdicionais -----

  /** `item.grupo || "Sem Grupo"`. */
  function GroupKey(item: Adicional): string
  {
    OrElse(item.grupo, "Sem Grupo")
  }

  /** The group names in order of first appearance: the key order of the `agrupados` object. */
  function GroupNames(s: seq<Adicional>): seq<string>
  {
    if s == [] then []
    else
      var ks := GroupNames(s[..|s| - 1]);
      if GroupKey(s[|s| - 1]) in ks then ks else ks + [GroupKey(s[|s| - 1])]
  }

  /** The items of group `g`, in input order. */
  function Members(s: seq<Adicional>, g: string): seq<Adicional>
  {
    if s == [] then []
    else Members(s[..|s| - 1], g) + (if GroupKey(s[|s| - 1]) == g then [s[|s| - 1]] else [])
  }

  lemma GroupNamesStep(s: seq<Adicional>, item: Adicional)
    ensures GroupNames(s + [item]) ==
      if GroupKey(item) in GroupNames(s) then GroupNames(s) else GroupNames(s) + [GroupKey(item)]
  {
    assert (s + [item])[..|s|] == s;
  }

  lemma MembersStep(s: seq<Adicional>, item: Adicional)
    ensures forall g :: Members(s + [item], g) == Members(s, g) + (if GroupKey(item) == g then [item] else [])
  {
    assert (s + [item])[..|s|] == s;
  }

  /** A group no item names is empty. */
  lemma {:induction false} MembersAbsent(s: seq<Adicional>, g: string)
    requires g !in GroupNames(s)
    ensures Members(s, g) == []
  {
    if s != [] {
      var init := s[..|s| - 1];
      GroupNamesStep(init, s[|s| - 1]);
      assert init + [s[|s| - 1]] == s;
      MembersAbsent(init, g);
    }
  }

  function InGroup(g: string): Adicional -> bool
  {
    item => GroupKey(item) == g
  }

  /** A group holds exactly `data.filter` of its name: its items, in input order. */
  lemma {:induction false} MembersIsFilter(s: seq<Adicional>, g: string)
    ensures Members(s, g) == Keep(s, InGroup(g))
  {
    if s != [] {
      var init := s[..|s| - 1];
      var last := s[|s| - 1];
      MembersIsFilter(init, g);
      assert init + [last] == s;
      KeepAppend(init, [last], InGroup(g));
    }
  }

  /** The group names are distinct, and every item's group is among them. */
  lemma {:induction false} GroupNamesSpec(s: seq<Adicional>)
    ensures Distinct(GroupNames(s))
    ensures forall i :: 0 <= i < |s| ==> GroupKey(s[i]) in GroupNames(s)
  {
    if s != [] {
      var init := s[..|s| - 1];
      GroupNamesSpec(init);
      GroupNamesStep(init, s[|s| - 1]);
      assert init + [s[|s| - 1]] == s;
    }
  }

  /**
   * Every item is in exactly one group: the names are distinct, each item's
   * group is among them and holds it, and a group holds only items of its name.
   */
  lemma EachItemInOneGroup(s: seq<Adicional>)
    ensures Distinct(GroupNames(s))
    ensures forall i :: 0 <= i < |s| ==> GroupKey(s[i]) in GroupNames(s)
    ensures forall i :: 0 <= i < |s| ==> s[i] in Members(s, GroupKey(s[i]))
    ensures forall g, j :: 0 <= j < |Members(s, g)| ==> GroupKey(Members(s, g)[j]) == g
  {
    GroupNamesSpec(s);
    forall g {
      MembersIsFilter(s, g);
    }
  }

  /**
   * The grouping `reduce` of `carregarAdicionais`: one pass that opens a group
   * at a name's first appearance and pushes each item onto its group.
   */
  method Agrupar(data: seq<Adicional>) returns (order: seq<string>, agrupados: map<string, seq<Adicional>>)
    ensures order == GroupNames(data)
    ensures forall g :: g in agrupados <==> g in order
    ensures forall g :: g in agrupados ==> agrupados[g] == Members(data, g)
  {
    order := [];
    agrupados := map[];
    var i := 0;
    while i < |data|
      invariant 0 <= i <= |data|
      invariant order == GroupNames(data[..i])
      invariant forall g :: g in agrupados <==> g in order
      invariant forall g :: g in agrupados ==> agrupados[g] == Members(data[..i], g)
    {
      var item := data[i];
      var grupoAtual := OrElse(item.grupo, "Sem Grupo");
      ghost var seen := data[..i];
      assert data[..i + 1] == seen + [item];
      GroupNamesStep(seen, item);
      if grupoAtual !in order {
        MembersAbsent(seen, grupoAtual);
      }
      if grupoAtual !in agrupados {
        agrupados := agrupados[grupoAtual := []];
        order := order + [grupoAtual];
      }
      agrupados := agrupados[grupoAtual := agrupados[grupoAtual] + [item]];
      MembersStep(seen, item);
      i := i + 1;
    }
    assert data[..i] == data;
  }

  // ----- Object.keys(adicionaisAgrupados).sort() -----

  /** The default `sort` order on strings: character by character, a prefix first. */
  predicate LexLeq(a: string, b: string)
  {
    a == [] || (b != [] && (a[0] < b[0] || (a[0] == b[0] && LexLeq(a[1..], b[1..]))))
  }

  lemma {:induction false} LexLeqTotal(a: string, b: string)
    ensures LexLeq(a, b) || LexLeq(b, a)
  {
    if a != [] && b != [] && a[0] == b[0] {
      LexLeqTotal(a[1..], b[1..]);
    }
  }

  lemma {:induction false} LexLeqTransitive(a: string, b: string, c: string)
    requires LexLeq(a, b) && LexLeq(b, c)
    ensures LexLeq(a, c)
  {
    if a != [] && a[0] == b[0] && b[0] == c[0] {
      LexLeqTransitive(a[1..], b[1..], c[1..]);
    }
  }

  lemma LexLeqIsTotalPreorder()
    ensures TotalPreorder(LexLeq)
  {
    forall a, b
      ensures LexLeq(a, b) || LexLeq(b, a)
    {
      LexLeqTotal(a, b);
    }
    forall a, b, c | LexLeq(a, b) && LexLeq(b, c)
      ensures LexLeq(a, c)
    {
      LexLeqTransitive(a, b, c);
    }
  }

  /** The group names in display order: sorted, and the same names. */
  method GruposOrdenados(order: seq<string>) returns (sorted: seq<string>)
    ensures SortedBy(sorted, LexLeq)
    ensures multiset(sorted) == multiset(order)
  {
    LexLeqIsTotalPreorder();
    sorted := SortedCopy(order, LexLeq);
  }

  // ----- the modal -----

  /** The modal's fields and the extra being edited, if any. */
  datatype Form = Form(editando: Option<Adicional>, chave: string, valor: string, conteudo: string, grupo: string)

  /** `limparCampos`. */
  const Blank := Form(None, "", "", "", "")

  /** `x !== undefined ? x : ""`. */
  function DefinedOrBlank(x: Option<string>): (r: string)
    ensures x.Some? ==> r == x.value
    ensures x.None? ==> r == ""
  {
    if x.Some? then x.value else ""
  }

  /**
   * `abrirModal`: with an item, the fields take its values (missing ones blank,
   * the amount as `String` writes it); without one, every field is cleared.
   */
  function AbrirModal(item: Option<Adicional>): (form: Form)
    ensures item.None? ==> form == Blank
    ensures item.Some? ==>
      && form.editando == item
      && form.chave == item.value.chave
      && form.valor == (if item.value.valor.Some? then item.value.valor.value.Show() else "")
      && form.conteudo == DefinedOrBlank(item.value.conteudo)
      && form.grupo == DefinedOrBlank(item.value.grupo)
  {
    if item.None? then Blank
    else
      var it := item.value;
      Form(item, it.chave, if it.valor.Some? then it.valor.value.Show() else "",
           DefinedOrBlank(it.conteudo), DefinedOrBlank(it.grupo))
  }

  /** The amount field's handler: the first comma becomes a point. */
  function OnChangeValor(text: string): string
  {
    ReplaceFirst(text, ',', '.')
  }

  /** The handler changes nothing else: the first comma is the only character replaced. */
  lemma OnChangeValorSpec(text: string)
    ensures |OnChangeValor(text)| == |text|
    ensures forall j :: 0 <= j < |text| && j != IndexOf(text, ',') ==> OnChangeValor(text)[j] == text[j]
    ensures IndexOf(text, ',') < |text| ==> OnChangeValor(text)[IndexOf(text, ',')] == '.'
  {
    ReplaceFirstSpec(text, ',', '.');
  }

  // ----- salvarAdicional -----

  /**
   * The JSON body. `valor` is `None` when left out and `Some(None)` for NaN,
   * which `JSON.stringify` writes as null; `conteudo` is `None` when left out.
   */
  datatype Body = Body(chave: string, valor: Option<Option<real>>, conteudo: Option<string>, grupo: string)

  datatype Request = Request(verb: Verb, url: string, body: Body)

  datatype SaveOutcome = Refused | Sent(request: Request)

  /**
   * `salvarAdicional`: refuses a blank key, and a blank amount together with a
   * blank content; otherwise sends the trimmed key, the parsed amount or
   * nothing, the trimmed content or nothing, and the trimmed group or "geral",
   * with a PUT to `/adicionais/{id}` when editing and a POST to `/adicionais` otherwise.
   */
  function SalvarAdicional(form: Form): (outcome: SaveOutcome)
    ensures outcome == Refused <==> Trim(form.chave) == "" || (Trim(form.valor) == "" && Trim(form.conteudo) == "")
    ensures outcome.Sent? ==>
      var body := outcome.request.body;
      && body.chave == Trim(form.chave)
      && (body.valor.None? <==> Trim(form.valor) == "")
      && (body.valor.Some? ==> body.valor.value == ParseAmount(form.valor))
      && (body.conteudo.None? <==> Trim(form.conteudo) == "")
      && (body.conteudo.Some? ==> body.conteudo.value == Trim(form.conteudo))
      && (Trim(form.grupo) == "" ==> body.grupo == "geral")
      && (Trim(form.grupo) != "" ==> body.grupo == Trim(form.grupo))
    ensures outcome.Sent? && form.editando.Some? ==>
      outcome.request.verb == Put && outcome.request.url == "/adicionais/" + form.editando.value.id
    ensures outcome.Sent? && form.editando.None? ==>
      outcome.request.verb == Post && outcome.request.url == "/adicionais"
  {
    if Trim(form.chave) == "" || (Trim(form.valor) == "" && Trim(form.conteudo) == "") then Refused
    else
      var body := Body(
        Trim(form.chave),
        if Trim(form.valor) == "" then None else Some(ParseAmount(form.valor)),
        if Trim(form.conteudo) == "" then None else Some(Trim(form.conteudo)),
        if Trim(form.grupo) == "" then "geral" else Trim(form.grupo));
      if form.editando.Some? then Sent(Request(Put, "/adicionais/" + form.editando.value.id, body))
      else Sent(Request(Post, "/adicionais", body))
  }

  /** A key typed with white space around it is saved exactly as the bare key. */
  lemma SavedKeyTrimmed(form: Form, left: string, right: string)
    requires AllSpace(left) && AllSpace(right)
    requires form.chave != [] && !IsSpace(form.chave[0]) && !IsSpace(form.chave[|form.chave| - 1])
    ensures SalvarAdicional(form.(chave := left + form.chave + right)) == SalvarAdicional(form)
  {
    TrimPadded(left, form.chave, right);
    TrimPadded([], form.chave, []);
    assert [] + form.chave + [] == form.chave;
  }
}
