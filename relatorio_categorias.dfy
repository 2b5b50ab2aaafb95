/**
 * The category report: the server's per-category totals split into loans and
 * expenses, each side summed and formatted into rows with a share of its total.
 */
module RelaorioCategorias {
  import opened Common
  import opened Sorting

  /** One entry of `/extrato/categorias`: the category name, possibly missing, and its signed total. */
  datatype CategoriaTotal = CategoriaTotal(id: Option<string>, total: real)

  /** A formatted row: the label, the signed total and its magnitude. */
  datatype Linha = Linha(nome: string, valor: real, valorAbsoluto: real)

  /** The screen's lists and totals. */
  datatype Relatorio = Relatorio(listaGastos: seq<Linha>, listaEmprestimos: seq<Linha>, totalGastos: real, totalEmprestimos: real)

  const Emprestimos := "Empréstimos"

  /** `item._id === "Empréstimos"`. */
  predicate IsLoan(item: CategoriaTotal)
  {
    item.id == Some(Emprestimos)
  }

  function Loan(): CategoriaTotal -> bool
  {
    item => IsLoan(item)
  }

  function Expense(): CategoriaTotal -> bool
  {
    item => !IsLoan(item)
  }

  /** `apenasEmprestimos`. */
  function ApenasEmprestimos(data: seq<CategoriaTotal>): seq<CategoriaTotal>
  {
    Keep(data, Loan())
  }

  /** `apenasGastos`. */
  function ApenasGastos(data: seq<CategoriaTotal>): seq<CategoriaTotal>
  {
    Keep(data, Expense())
  }

  /**
   * Loans are exactly the entries named "Empréstimos", expenses all the others,
   * each side in input order, and between them they hold every entry once.
   */
  lemma LoanExpensePartition(data: seq<CategoriaTotal>)
    ensures forall i :: 0 <= i < |ApenasEmprestimos(data)| ==> IsLoan(ApenasEmprestimos(data)[i])
    ensures forall i :: 0 <= i < |ApenasGastos(data)| ==> !IsLoan(ApenasGastos(data)[i])
    ensures multiset(ApenasEmprestimos(data)) + multiset(ApenasGastos(data)) == multiset(data)
  {
    KeepPartition(data, Loan(), Expense());
  }

  /** `reduce((acc, item) => acc + Math.abs(item.total), 0)`. */
  function SumAbs(s: seq<CategoriaTotal>): real
  {
    if s == [] then 0.0 else SumAbs(s[..|s| - 1]) + Abs(s[|s| - 1].total)
  }

  /** `reduce((acc, item) => acc + item.total, 0)`. */
  function SumSigned(s: seq<CategoriaTotal>): real
  {
    if s == [] then 0.0 else SumSigned(s[..|s| - 1]) + s[|s| - 1].total
  }

  /** The expense total is never negative, and it is zero only when every expense is. */
  lemma {:induction false} SumAbsNonNegative(s: seq<CategoriaTotal>)
    ensures SumAbs(s) >= 0.0
    ensures SumAbs(s) == 0.0 <==> forall i :: 0 <= i < |s| ==> s[i].total == 0.0
  {
    if s != [] {
      var init := s[..|s| - 1];
      SumAbsNonNegative(init);
      assert forall i :: 0 <= i < |init| ==> init[i] == s[i];
    }
  }

  /** The loan total bounds by the magnitudes: |Σ total| <= Σ |total|. */
  lemma {:induction false} SumSignedBounded(s: seq<CategoriaTotal>)
    ensures Abs(SumSigned(s)) <= SumAbs(s)
  {
    if s != [] {
      SumSignedBounded(s[..|s| - 1]);
    }
  }

  /** An expense row: the name, or "Outros" when it has none. */
  function LinhaGasto(item: CategoriaTotal): (row: Linha)
    ensures row.nome == OrElse(item.id, "Outros")
    ensures row.valor == item.total && row.valorAbsoluto == Abs(item.total)
  {
    Linha(OrElse(item.id, "Outros"), item.total, Abs(item.total))
  }

  /** A loan row: the name as listed. */
  function LinhaEmprestimo(item: CategoriaTotal): (row: Linha)
    requires IsLoan(item)
    ensures row.nome == Emprestimos
    ensures row.valor == item.total && row.valorAbsoluto == Abs(item.total)
  {
    Linha(item.id.value, item.total, Abs(item.total))
  }

  /** `gastosFormatados`. */
  function GastosFormatados(s: seq<CategoriaTotal>): (rows: seq<Linha>)
    ensures |rows| == |s|
  {
    if s == [] then [] else GastosFormatados(s[..|s| - 1]) + [LinhaGasto(s[|s| - 1])]
  }

  /** `emprestimosFormatados`. */
  function EmprestimosFormatados(s: seq<CategoriaTotal>): (rows: seq<Linha>)
    requires forall i :: 0 <= i < |s| ==> IsLoan(s[i])
    ensures |rows| == |s|
  {
    if s == [] then [] else EmprestimosFormatados(s[..|s| - 1]) + [LinhaEmprestimo(s[|s| - 1])]
  }

  /** Row `i` is the formatting of entry `i`. */
  lemma {:induction false} GastosFormatadosAt(s: seq<CategoriaTotal>, i: int)
    requires 0 <= i < |s|
    ensures GastosFormatados(s)[i] == LinhaGasto(s[i])
  {
    if i < |s| - 1 {
      GastosFormatadosAt(s[..|s| - 1], i);
    }
  }

  lemma {:induction false} EmprestimosFormatadosAt(s: seq<CategoriaTotal>, i: int)
    requires forall j :: 0 <= j < |s| ==> IsLoan(s[j])
    requires 0 <= i < |s|
    ensures EmprestimosFormatados(s)[i] == LinhaEmprestimo(s[i])
  {
    if i < |s| - 1 {
      EmprestimosFormatadosAt(s[..|s| - 1], i);
    }
  }

  /**
   * `carregarDados`: a listed response replaces both lists and both totals; any
   * other response empties the lists and leaves the totals as they were.
   */
  function CarregarDados(state: Relatorio, data: Json<CategoriaTotal>): (next: Relatorio)
    ensures data.JsonArray? ==>
      var gastos := ApenasGastos(data.items);
      var emprestimos := ApenasEmprestimos(data.items);
      && next.totalGastos == SumAbs(gastos)
      && next.totalEmprestimos == SumSigned(emprestimos)
      && |next.listaGastos| == |gastos|
      && |next.listaEmprestimos| == |emprestimos|
    ensures data.JsonOther? ==>
      next == Relatorio([], [], state.totalGastos, state.totalEmprestimos)
  {
    if data.JsonArray? then
      var gastos := ApenasGastos(data.items);
      var emprestimos := ApenasEmprestimos(data.items);
      Relatorio(GastosFormatados(gastos), EmprestimosFormatados(emprestimos), SumAbs(gastos), SumSigned(emprestimos))
    else
      state.(listaGastos := [], listaEmprestimos := [])
  }

  /** A loaded report's expense total is never negative, and its net loan total is no larger in size than the loans' magnitudes. */
  lemma LoadedTotals(state: Relatorio, items: seq<CategoriaTotal>)
    ensures CarregarDados(state, JsonArray(items)).totalGastos >= 0.0
    ensures Abs(CarregarDados(state, JsonArray(items)).totalEmprestimos) <= SumAbs(ApenasEmprestimos(items))
  {
    SumAbsNonNegative(ApenasGastos(items));
    SumSignedBounded(ApenasEmprestimos(items));
  }

  /** Each row of a loaded report formats the entry at the same position of its side. */
  lemma LoadedRows(state: Relatorio, items: seq<CategoriaTotal>)
    ensures var r := CarregarDados(state, JsonArray(items));
      && (forall i :: 0 <= i < |r.listaGastos| ==> r.listaGastos[i] == LinhaGasto(ApenasGastos(items)[i]))
      && (forall i :: 0 <= i < |r.listaEmprestimos| ==> r.listaEmprestimos[i] == LinhaEmprestimo(ApenasEmprestimos(items)[i]))
  {
    forall i | 0 <= i < |ApenasGastos(items)| {
      GastosFormatadosAt(ApenasGastos(items), i);
    }
    forall i | 0 <= i < |ApenasEmprestimos(items)| {
      EmprestimosFormatadosAt(ApenasEmprestimos(items), i);
    }
  }

  /** `porcentagem` of `renderCategoriaItem`: 0 against a zero total, else the row's share of it. */
  function Porcentagem(row: Linha, totalReferencia: real): (p: real)
    ensures totalReferencia == 0.0 ==> p == 0.0
    ensures totalReferencia != 0.0 ==> p * Abs(totalReferencia) == row.valorAbsoluto * 100.0
  {
    if totalReferencia == 0.0 then 0.0 else (row.valorAbsoluto / Abs(totalReferencia)) * 100.0
  }

  /** The percentages of a list of rows, added up. */
  function SumPorcentagem(rows: seq<Linha>, totalReferencia: real): real
  {
    if rows == [] then 0.0 else SumPorcentagem(rows[..|rows| - 1], totalReferencia) + Porcentagem(rows[|rows| - 1], totalReferencia)
  }

  /** The expense rows' shares of a non-zero reference add up to their magnitudes over it. */
  lemma {:induction false} SumPorcentagemGastos(s: seq<CategoriaTotal>, ref: real)
    requires ref > 0.0
    ensures SumPorcentagem(GastosFormatados(s), ref) * ref == 100.0 * SumAbs(s)
  {
    if s != [] {
      var init, last := s[..|s| - 1], s[|s| - 1];
      SumPorcentagemGastos(init, ref);
      var rows := GastosFormatados(s);
      assert rows[..|rows| - 1] == GastosFormatados(init);
      var before := SumPorcentagem(GastosFormatados(init), ref);
      var p := Porcentagem(LinhaGasto(last), ref);
      assert SumPorcentagem(rows, ref) == before + p;
      MulAdd(before, p, ref);
    }
  }

  lemma MulAdd(x: real, y: real, z: real)
    ensures (x + y) * z == x * z + y * z
  {
  }

  /** Expense rows take 100% of their own non-zero total between them. */
  lemma SharesSumToHundred(gastos: seq<CategoriaTotal>)
    requires SumAbs(gastos) != 0.0
    ensures SumPorcentagem(GastosFormatados(gastos), SumAbs(gastos)) == 100.0
  {
    SumAbsNonNegative(gastos);
    var t := SumAbs(gastos);
    SumPorcentagemGastos(gastos, t);
    var x := SumPorcentagem(GastosFormatados(gastos), t);
    assert x * t == 100.0 * SumAbs(gastos);
    Cancel(x, t);
  }

  /** The expense rows of a loaded report take 100% of the expense total between them, when it is not zero. */
  lemma GastosSumToHundred(state: Relatorio, items: seq<CategoriaTotal>)
    requires CarregarDados(state, JsonArray(items)).totalGastos != 0.0
    ensures var r := CarregarDados(state, JsonArray(items));
      SumPorcentagem(r.listaGastos, r.totalGastos) == 100.0
  {
    SharesSumToHundred(ApenasGastos(items));
  }

  lemma Cancel(x: real, t: real)
    requires t != 0.0 && x * t == 100.0 * t
    ensures x == 100.0
  {
    assert (x - 100.0) * t == 0.0;
  }
}
