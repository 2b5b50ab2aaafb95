/**
 * The payables screen: the list sorted by due date, the guard in front of the
 * payment screen, the per-institution summary, and the status label and amount
 * shown on each card.
 */
module ContasAPagar {
  import opened Common
  import opened Sorting

  /** A payable ("conta") as the backend returns it; dates are millisecond timestamps. */
  datatype Conta = Conta(
    id: string,
    instituicao: Option<string>,
    descricao: string,
    valor: real,
    valorRestante: Option<real>,
    dataVencimento: int,
    status: string)

  /** One row of the "por instituição" tab. */
  datatype Grupo = Grupo(nome: string, totalHistorico: real, totalAPagar: real)

  /** The two sums a group carries. */
  datatype Measure = Historico | APagar

  // ----- loading -----

  /** The comparator `(a, b) => new Date(a.dataVencimento) - new Date(b.dataVencimento)`. */
  function DueFirst(a: Conta, b: Conta): bool
  {
    a.dataVencimento <= b.dataVencimento
  }

  lemma DueFirstIsTotalPreorder()
    ensures TotalPreorder(DueFirst)
  {
  }

  /**
   * `carregarContas`: an array response is sorted by due date, earliest first;
   * any other body empties the list; a failed request (`None`) keeps the
   * current list.
   */
  method CarregarContas(current: seq<Conta>, response: Option<Json<Conta>>) returns (contas: seq<Conta>)
    ensures response.None? ==> contas == current
    ensures response == Some(JsonOther) ==> contas == []
    ensures response.Some? && response.value.JsonArray? ==>
      && multiset(contas) == multiset(response.value.items)
      && SortedBy(contas, DueFirst)
  {
    if response.None? {
      contas := current;
    } else if response.value.JsonOther? {
      contas := [];
    } else {
      DueFirstIsTotalPreorder();
      contas := SortedCopy(response.value.items, DueFirst);
    }
  }

  // ----- irParaPagamento -----

  predicate Paid(c: Conta) { c.status == "pago" }

  /** `irParaPagamento`: the conta handed to the payment screen, if any. */
  function PaymentTarget(item: Conta): (r: Option<Conta>)
    ensures r.None? <==> Paid(item)
    ensures r.Some? ==> r.value == item
  {
    if item.status == "pago" then None else Some(item)
  }

  // ----- dadosInstituicoes -----

  /** `conta.instituicao || "Outros"`. */
  function GroupKey(c: Conta): (k: string)
    ensures c.instituicao.Some? && c.instituicao.value != "" ==> k == c.instituicao.value
    ensures (c.instituicao.None? || c.instituicao.value == "") ==> k == "Outros"
  {
    OrElse(c.instituicao, "Outros")
  }

  /** `valorRestante ?? valor`: what is still owed on an unpaid conta. */
  function Owed(c: Conta): real
  {
    if c.valorRestante.Some? then c.valorRestante.value else c.valor
  }

  /** What `c` adds to a group's historical total, or to its outstanding total. */
  function Amount(c: Conta, m: Measure): real
  {
    match m
    case Historico => c.valor
    case APagar => if Paid(c) then 0.0 else Owed(c)
  }

  /** The group names in order of first appearance, the insertion order of the `grupos` object's keys. */
  function Keys(s: seq<Conta>): seq<string>
  {
    if s == [] then []
    else
      var ks := Keys(s[..|s| - 1]);
      if GroupKey(s[|s| - 1]) in ks then ks else ks + [GroupKey(s[|s| - 1])]
  }

  /** Appending a conta opens a new group exactly when its name has not been seen. */
  lemma KeysStep(s: seq<Conta>, c: Conta)
    ensures Keys(s + [c]) == if GroupKey(c) in Keys(s) then Keys(s) else Keys(s) + [GroupKey(c)]
  {
    assert (s + [c])[..|s|] == s;
  }

  /** Every conta is counted in exactly one group: the names are distinct and each conta's name is among them. */
  lemma {:induction false} KeysExactlyOnce(s: seq<Conta>)
    ensures forall p, q :: 0 <= p < q < |Keys(s)| ==> Keys(s)[p] != Keys(s)[q]
    ensures forall i :: 0 <= i < |s| ==> GroupKey(s[i]) in Keys(s)
  {
    if s != [] {
      var init := s[..|s| - 1];
      KeysExactlyOnce(init);
      KeysStep(init, s[|s| - 1]);
      assert init + [s[|s| - 1]] == s;
      assert forall i :: 0 <= i < |init| ==> s[i] == init[i];
    }
  }

  /** Every group name comes from some conta. */
  lemma {:induction false} KeysFromContas(s: seq<Conta>)
    ensures forall k :: k in Keys(s) ==> exists i :: 0 <= i < |s| && GroupKey(s[i]) == k
  {
    if s != [] {
      var init := s[..|s| - 1];
      KeysFromContas(init);
      KeysStep(init, s[|s| - 1]);
      assert init + [s[|s| - 1]] == s;
      forall k | k in Keys(s)
        ensures exists i :: 0 <= i < |s| && GroupKey(s[i]) == k
      {
        if k in Keys(init) {
          var i :| 0 <= i < |init| && GroupKey(init[i]) == k;
          assert s[i] == init[i];
        } else {
          assert GroupKey(s[|s| - 1]) == k;
        }
      }
    }
  }

  /** Appending a conta changes only its own group's row, by its amounts. */
  lemma RowStep(s: seq<Conta>, c: Conta)
    ensures forall k ::
      Row(s + [c], k) == (if GroupKey(c) == k then Grupo(k, Row(s, k).totalHistorico + Amount(c, Historico), Row(s, k).totalAPagar + Amount(c, APagar)) else Row(s, k))
  {
    assert (s + [c])[..|s|] == s;
  }

  /** The sum of `m` over the contas of group `k`. */
  function GroupTotal(s: seq<Conta>, k: string, m: Measure): real
  {
    if s == [] then 0.0
    else GroupTotal(s[..|s| - 1], k, m) + (if GroupKey(s[|s| - 1]) == k then Amount(s[|s| - 1], m) else 0.0)
  }

  /** The sum of `m` over all contas. */
  function Total(s: seq<Conta>, m: Measure): real
  {
    if s == [] then 0.0 else Total(s[..|s| - 1], m) + Amount(s[|s| - 1], m)
  }

  function Row(s: seq<Conta>, k: string): Grupo
  {
    Grupo(k, GroupTotal(s, k, Historico), GroupTotal(s, k, APagar))
  }

  /** One row per group, in order of first appearance: `Object.values(grupos)` before sorting. */
  function Rows(s: seq<Conta>): (rows: seq<Grupo>)
    ensures |rows| == |Keys(s)|
  {
    var ks := Keys(s);
    seq(|ks|, j requires 0 <= j < |ks| => Row(s, ks[j]))
  }

  /** The comparator `(a, b) => b.totalAPagar - a.totalAPagar`: most owed first. */
  function MostOwedFirst(a: Grupo, b: Grupo): bool
  {
    b.totalAPagar <= a.totalAPagar
  }

  lemma MostOwedFirstIsTotalPreorder()
    ensures TotalPreorder(MostOwedFirst)
  {
  }

  /** `dadosInstituicoes`: builds the groups in one pass over the contas, then sorts them. */
  method DadosInstituicoes(contas: seq<Conta>) returns (grupos: seq<Grupo>)
    ensures multiset(grupos) == multiset(Rows(contas))
    ensures SortedBy(grupos, MostOwedFirst)
  {
    var order, byName := AgruparContas(contas);
    var values := seq(|order|, j requires 0 <= j < |order| => byName[order[j]]);
    assert values == Rows(contas);
    MostOwedFirstIsTotalPreorder();
    grupos := SortedCopy(values, MostOwedFirst);
  }

  /**
   * The `forEach` of `dadosInstituicoes`: opens a group at a name's first
   * appearance and adds each conta's value and unpaid rest to its group.
   */
  method AgruparContas(contas: seq<Conta>) returns (order: seq<string>, byName: map<string, Grupo>)
    ensures order == Keys(contas)
    ensures forall k :: k in byName <==> k in order
    ensures forall k :: k in byName ==> byName[k] == Row(contas, k)
  {
    order := [];
    byName := map[];
    var i := 0;
    while i < |contas|
      invariant 0 <= i <= |contas|
      invariant order == Keys(contas[..i])
      invariant forall k :: k in byName <==> k in order
      invariant forall k :: k in byName ==> byName[k] == Row(contas[..i], k)
    {
      var conta := contas[i];
      var nome := OrElse(conta.instituicao, "Outros");
      ghost var seen := contas[..i];
      ghost var old_names := order;
      assert contas[..i + 1] == seen + [conta];
      KeysStep(seen, conta);
      if nome !in old_names {
        GroupTotalAbsent(seen, nome, Historico);
        GroupTotalAbsent(seen, nome, APagar);
      }
      if nome !in byName {
        byName := byName[nome := Grupo(nome, 0.0, 0.0)];
        order := order + [nome];
      }
      var restante := if conta.status == "pago" then 0.0 else Owed(conta);
      var g := byName[nome];
      byName := byName[nome := Grupo(g.nome, g.totalHistorico + conta.valor, g.totalAPagar + restante)];
      RowStep(seen, conta);
      i := i + 1;
    }
    assert contas[..i] == contas;
  }

  /** The sum, over the group names `ks`, of each group's total. */
  function SumGroups(ks: seq<string>, s: seq<Conta>, m: Measure): real
  {
    if ks == [] then 0.0 else SumGroups(ks[..|ks| - 1], s, m) + GroupTotal(s, ks[|ks| - 1], m)
  }

  /**
   * Every conta is counted in exactly one group: the group totals add up to the
   * totals over all contas, for the historical and for the outstanding sums.
   */
  lemma {:induction false} GroupsPartitionTotals(s: seq<Conta>, m: Measure)
    ensures SumGroups(Keys(s), s, m) == Total(s, m)
  {
    if s != [] {
      var init := s[..|s| - 1];
      var c := s[|s| - 1];
      var ks := Keys(init);
      GroupsPartitionTotals(init, m);
      KeysExactlyOnce(init);
      SumGroupsStep(ks, init, c, m);
      assert init + [c] == s;
      KeysStep(init, c);
      if GroupKey(c) !in ks {
        var ks' := ks + [GroupKey(c)];
        assert ks'[..|ks'| - 1] == ks;
        GroupTotalAbsent(init, GroupKey(c), m);
      }
    }
  }

  /** A group name no conta carries has a zero total. */
  lemma {:induction false} GroupTotalAbsent(s: seq<Conta>, k: string, m: Measure)
    requires k !in Keys(s)
    ensures GroupTotal(s, k, m) == 0.0
  {
    if s != [] {
      var init := s[..|s| - 1];
      KeysStep(init, s[|s| - 1]);
      assert init + [s[|s| - 1]] == s;
      GroupTotalAbsent(init, k, m);
    }
  }

  /** Appending one conta adds its amount to exactly the one group it belongs to. */
  lemma {:induction false} SumGroupsStep(ks: seq<string>, s: seq<Conta>, c: Conta, m: Measure)
    requires forall p, q :: 0 <= p < q < |ks| ==> ks[p] != ks[q]
    ensures SumGroups(ks, s + [c], m) == SumGroups(ks, s, m) + (if GroupKey(c) in ks then Amount(c, m) else 0.0)
  {
    assert (s + [c])[..|s + [c]| - 1] == s;
    if ks != [] {
      var init := ks[..|ks| - 1];
      SumGroupsStep(init, s, c, m);
      assert GroupKey(c) in ks <==> GroupKey(c) in init || GroupKey(c) == ks[|ks| - 1];
      if GroupKey(c) == ks[|ks| - 1] {
        assert GroupKey(c) !in init;
      }
    }
  }

  // ----- renderConta -----

  /** Milliseconds in a day. */
  const DayMs := 86400000

  /** `d.setHours(0, 0, 0, 0)` on a timestamp, in UTC: the start of its day. */
  function StartOfDay(t: int): (d: int)
    ensures d <= t < d + DayMs
    ensures d % DayMs == 0
  {
    t - t % DayMs
  }

  /** Comparing at day precision: a due date lies on an earlier day than `hoje` exactly when it is before midnight of `hoje`. */
  lemma EarlierDay(due: int, hoje: int)
    ensures StartOfDay(due) < StartOfDay(hoje) <==> due < StartOfDay(hoje)
  {
    var a, b := StartOfDay(due), StartOfDay(hoje);
    if a < b {
      assert a == (due / DayMs) * DayMs && b == (hoje / DayMs) * DayMs;
      assert due / DayMs < hoje / DayMs;
      MultiplyMonotone(due / DayMs + 1, hoje / DayMs);
    }
  }

  lemma MultiplyMonotone(x: int, y: int)
    requires x <= y
    ensures x * DayMs <= y * DayMs
  {
  }

  /** The status text of a card. */
  datatype Rotulo = Pago | Parcial | Vencida | Pendente

  /** The label of `renderConta`: paid first, then partial, then overdue by day, otherwise pending. */
  function Label(c: Conta, hoje: int): (r: Rotulo)
    ensures r == Pago <==> c.status == "pago"
    ensures r == Parcial <==> c.status == "parcial"
    ensures r == Vencida <==> c.status != "pago" && c.status != "parcial" && c.dataVencimento < StartOfDay(hoje)
    ensures r == Pendente <==> c.status != "pago" && c.status != "parcial" && c.dataVencimento >= StartOfDay(hoje)
  {
    EarlierDay(c.dataVencimento, hoje);
    if c.status == "pago" then Pago
    else if c.status == "parcial" then Parcial
    else if StartOfDay(c.dataVencimento) < StartOfDay(hoje) then Vencida
    else Pendente
  }

  /** `valorExibir`: the full value of a paid conta, else what is still owed. */
  function ValorExibir(c: Conta): real
  {
    if c.status == "pago" then c.valor
    else if c.valorRestante.Some? then c.valorRestante.value else c.valor
  }

  /** The amount on a card is what the conta adds to its group's outstanding total, unless it is paid. */
  lemma ValorExibirMatchesGroups(c: Conta)
    ensures Paid(c) ==> ValorExibir(c) == Amount(c, Historico) && Amount(c, APagar) == 0.0
    ensures !Paid(c) ==> ValorExibir(c) == Amount(c, APagar)
  {
  }
}
