/**
 * The boxes overview ("minhas caixas"): the main box picked out of the list,
 * the other boxes in their listed order with rotating colours, and the
 * parameters a box passes to its statement.
 */
module Caixas {
  import opened Common
  import opened Sorting

  /** A box as `/caixas` lists it. */
  datatype Caixa = Caixa(id: string, nome: string, saldo: real)

  /** The comparison the screen uses: exact and case-sensitive. */
  predicate IsPrincipal(c: Caixa)
  {
    c.nome == "Principal"
  }

  /** `caixas[i]` is the first box named exactly "Principal". */
  predicate FirstPrincipalAt(caixas: seq<Caixa>, i: int)
  {
    0 <= i < |caixas| && IsPrincipal(caixas[i]) && forall j :: 0 <= j < i ==> !IsPrincipal(caixas[j])
  }

  /** `data.find((item) => item.nome === "Principal")`. */
  function FindPrincipal(caixas: seq<Caixa>): (r: Option<Caixa>)
    ensures r.None? <==> forall i :: 0 <= i < |caixas| ==> !IsPrincipal(caixas[i])
    ensures r.Some? ==> exists i :: FirstPrincipalAt(caixas, i) && caixas[i] == r.value
  {
    if caixas == [] then None
    else if IsPrincipal(caixas[0]) then
      assert FirstPrincipalAt(caixas, 0);
      Some(caixas[0])
    else
      var r := FindPrincipal(caixas[1..]);
      if r.Some? then
        var i :| FirstPrincipalAt(caixas[1..], i) && caixas[1..][i] == r.value;
        assert FirstPrincipalAt(caixas, i + 1);
        r
      else r
  }

  function NotPrincipal(): Caixa -> bool
  {
    c => !IsPrincipal(c)
  }

  function Principal(): Caixa -> bool
  {
    c => IsPrincipal(c)
  }

  /** `data.filter((item) => item.nome !== "Principal")`. */
  function Secundarias(caixas: seq<Caixa>): seq<Caixa>
  {
    Keep(caixas, NotPrincipal())
  }

  /**
   * The secondaries are the boxes not named "Principal", kept in order; with
   * the boxes that are named so they make up the whole list, each box once.
   */
  lemma SecundariasPartition(caixas: seq<Caixa>)
    ensures forall i :: 0 <= i < |Secundarias(caixas)| ==> !IsPrincipal(Secundarias(caixas)[i])
    ensures forall i :: 0 <= i < |caixas| && !IsPrincipal(caixas[i]) ==> caixas[i] in Secundarias(caixas)
    ensures multiset(Secundarias(caixas)) + multiset(Keep(caixas, Principal())) == multiset(caixas)
  {
    KeepPartition(caixas, NotPrincipal(), Principal());
  }

  /** The found main box is never listed again among the others. */
  lemma PrincipalNotSecundaria(caixas: seq<Caixa>)
    ensures FindPrincipal(caixas).Some? ==> FindPrincipal(caixas).value !in Secundarias(caixas)
  {
  }

  /** The screen's state and the id kept under "@caixa_principal_id". */
  datatype State = State(caixaPrincipal: Option<Caixa>, caixasSecundarias: seq<Caixa>, cachedPrincipalId: Option<string>)

  /**
   * `carregarCaixas` on a listed response: the secondaries are replaced; the
   * main box and its cached id change only when a main box is found, and
   * otherwise keep what an earlier load left.
   */
  function CarregarCaixas(state: State, data: seq<Caixa>): (next: State)
    ensures next.caixasSecundarias == Secundarias(data)
    ensures FindPrincipal(data).Some? ==>
      next.caixaPrincipal == FindPrincipal(data) && next.cachedPrincipalId == Some(FindPrincipal(data).value.id)
    ensures FindPrincipal(data).None? ==>
      next.caixaPrincipal == state.caixaPrincipal && next.cachedPrincipalId == state.cachedPrincipalId
  {
    var principal := FindPrincipal(data);
    var secundarias := Secundarias(data);
    if principal.Some? then State(principal, secundarias, Some(principal.value.id))
    else state.(caixasSecundarias := secundarias)
  }

  /** A list without a main box leaves the main box of the previous load on screen. */
  lemma StalePrincipalKept(before: seq<Caixa>, after: seq<Caixa>, state: State)
    requires FindPrincipal(before).Some?
    requires forall i :: 0 <= i < |after| ==> !IsPrincipal(after[i])
    ensures CarregarCaixas(CarregarCaixas(state, before), after).caixaPrincipal == FindPrincipal(before)
  {
  }

  /** The route parameters `abrirCaixa` passes to the statement screen. */
  datatype ExtratoParams = ExtratoParams(caixaId: string, caixaNome: string)

  /** `abrirCaixa`: the box's own id, and its name with "Principal" shown as "Geral". */
  function AbrirCaixa(c: Caixa): (p: ExtratoParams)
    ensures p.caixaId == c.id
    ensures IsPrincipal(c) ==> p.caixaNome == "Geral"
    ensures !IsPrincipal(c) ==> p.caixaNome == c.nome
  {
    ExtratoParams(c.id, if c.nome == "Principal" then "Geral" else c.nome)
  }

  /** No box opens its statement under the name "Principal". */
  lemma NeverOpensAsPrincipal(c: Caixa)
    ensures AbrirCaixa(c).caixaNome != "Principal"
  {
  }

  /** `cardColors`. */
  const CardColors: seq<string> := ["#0984e3", "#e17055", "#00b894", "#6c5ce7", "#fdcb6e"]

  /** The left border colour of the secondary box at position `i`. */
  function CardColor(i: nat): (color: string)
    ensures color in CardColors
  {
    CardColors[i % |CardColors|]
  }

  /** The colours repeat every five boxes, and five boxes in a row all differ. */
  lemma CardColorCycle(i: nat)
    ensures CardColor(i + 5) == CardColor(i)
    ensures forall j :: i < j < i + 5 ==> CardColor(j) != CardColor(i)
  {
  }
}
