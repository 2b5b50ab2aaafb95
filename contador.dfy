/**
 * The cash counter ("conferência de caixa"): banknote quantities per
 * denomination, coins and online money typed as amounts, the totals derived
 * from them and the difference to the system balance.
 */
module Contador {
  import opened Common
  import opened Text

  /** `cedulas`: the banknote denominations, in the order the total is summed. */
  const Cedulas: seq<int> := [200, 100, 50, 20, 10, 5, 2]

  /** The quantities the screen starts with and `limparTudo` restores: every denomination blank. */
  const BlankQuantidades: map<int, string> :=
    map[200 := "", 100 := "", 50 := "", 20 := "", 10 := "", 5 := "", 2 := ""]

  /** `parseInt(quantidades[nota]) || 0`: a missing, blank or unreadable quantity counts 0. */
  function Quantity(q: map<int, string>, nota: int): int
  {
    if nota in q then (match ParseInt(q[nota]) case Some(v) => v case None => 0) else 0
  }

  /** The notes total over `notas`: each quantity times its denomination. */
  function NotesTotal(q: map<int, string>, notas: seq<int>): int
  {
    if notas == [] then 0
    else NotesTotal(q, notas[..|notas| - 1]) + Quantity(q, notas[|notas| - 1]) * notas[|notas| - 1]
  }

  /** Every quantity went through the digits-only handler. */
  predicate DigitsOnly(q: map<int, string>)
  {
    forall k :: k in q ==> AllDigits(q[k])
  }

  /** Quantities of digits only and positive denominations give a total that is never negative. */
  lemma {:induction false} NotesTotalNonNegative(q: map<int, string>, notas: seq<int>)
    requires DigitsOnly(q)
    requires forall i :: 0 <= i < |notas| ==> notas[i] > 0
    ensures NotesTotal(q, notas) >= 0
  {
    if notas != [] {
      var n := |notas| - 1;
      NotesTotalNonNegative(q, notas[..n]);
      assert Quantity(q, notas[n]) >= 0;
    }
  }

  /** Blank fields all count 0. */
  lemma {:induction false} NotesTotalBlank(q: map<int, string>, notas: seq<int>)
    requires forall k :: k in q ==> q[k] == ""
    ensures NotesTotal(q, notas) == 0
  {
    if notas != [] {
      NotesTotalBlank(q, notas[..|notas| - 1]);
    }
  }

  /** `parseFloat(text.replace(",", ".")) || 0`: NaN counts 0. */
  function Amount(text: string): (r: real)
  {
    match ParseAmount(text) case Some(v) => v case None => 0.0
  }

  /** A text of `[0-9.,]` never counts negative. */
  lemma AmountNonNegative(text: string)
    requires AllIn(text, AmountChars)
    ensures Amount(text) >= 0.0
  {
    ParseAmountNonNegative(text);
  }

  /** What `salvarDados` stores and `carregarDadosSalvos` reads back; a field may be missing. */
  datatype Contagem = Contagem(quantidades: Option<map<int, string>>, totalMoedas: Option<string>, valorOnline: Option<string>)

  /** The counter screen: its inputs, the totals derived from them and the system balance it is checked against. */
  class Contador {
    var quantidades: map<int, string>
    var totalMoedas: string
    var valorOnline: string
    var totalFisico: real
    var totalOnlineCalculado: real
    var totalApurado: real
    const saldo: real

    /** The totals are those `calcularTotal` derives from the current inputs. */
    predicate Consistent()
      reads this
    {
      && totalFisico == NotesTotal(quantidades, Cedulas) as real + Amount(totalMoedas)
      && totalOnlineCalculado == Amount(valorOnline)
      && totalApurado == totalFisico + totalOnlineCalculado
    }

    /** Every input went through its handler. */
    predicate Sanitised()
      reads this
    {
      DigitsOnly(quantidades) && AllIn(totalMoedas, AmountChars) && AllIn(valorOnline, AmountChars)
    }

    constructor (saldo: real)
      ensures quantidades == BlankQuantidades && totalMoedas == "" && valorOnline == ""
      ensures totalApurado == 0.0 && this.saldo == saldo
      ensures Consistent() && Sanitised()
    {
      quantidades := BlankQuantidades;
      totalMoedas := "";
      valorOnline := "";
      totalFisico := 0.0;
      totalOnlineCalculado := 0.0;
      totalApurado := 0.0;
      this.saldo := saldo;
      NotesTotalBlank(BlankQuantidades, Cedulas);
    }

    /** `diferenca`: the counted total minus the system balance. */
    function Diferenca(): real
      reads this
    {
      totalApurado - saldo
    }

    /** `isNegativo`: the difference is shown as a shortfall. */
    predicate IsNegativo()
      reads this
    {
      Diferenca() < 0.0
    }

    /** The notes sum of `calcularTotal`: a loop over the denominations. */
    method SomaNotas() returns (somaNotas: int)
      ensures somaNotas == NotesTotal(quantidades, Cedulas)
    {
      somaNotas := 0;
      var i := 0;
      while i < |Cedulas|
        invariant 0 <= i <= |Cedulas|
        invariant somaNotas == NotesTotal(quantidades, Cedulas[..i])
      {
        var valor := Cedulas[i];
        var qtd := Quantity(quantidades, valor);
        assert Cedulas[..i + 1][..i] == Cedulas[..i];
        somaNotas := somaNotas + qtd * valor;
        i := i + 1;
      }
      assert Cedulas[..i] == Cedulas;
    }

    /** `calcularTotal`: physical = notes + coins, counted = physical + online. */
    method CalcularTotal()
      modifies this
      ensures Consistent()
      ensures quantidades == old(quantidades) && totalMoedas == old(totalMoedas) && valorOnline == old(valorOnline)
    {
      var somaNotas := SomaNotas();
      var vMoedas := Amount(totalMoedas);
      var fisico := somaNotas as real + vMoedas;
      totalFisico := fisico;
      var vOnline := Amount(valorOnline);
      totalOnlineCalculado := vOnline;
      totalApurado := fisico + vOnline;
    }

    /** `handleChangeQtd`, then the totals effect: only digits are kept, under that denomination alone. */
    method HandleChangeQtd(valorNota: int, texto: string)
      modifies this
      ensures quantidades == old(quantidades)[valorNota := Filter(texto, Digits)]
      ensures AllDigits(quantidades[valorNota])
      ensures totalMoedas == old(totalMoedas) && valorOnline == old(valorOnline)
      ensures old(Sanitised()) ==> Sanitised()
      ensures Consistent()
    {
      var novoTexto := Filter(texto, Digits);
      DigitsAreDigits(novoTexto);
      quantidades := quantidades[valorNota := novoTexto];
      CalcularTotal();
    }

    /** `handleChangeMoedas`, then the totals effect: only `[0-9.,]` is kept. */
    method HandleChangeMoedas(texto: string)
      modifies this
      ensures totalMoedas == Filter(texto, AmountChars) && AllIn(totalMoedas, AmountChars)
      ensures quantidades == old(quantidades) && valorOnline == old(valorOnline)
      ensures old(Sanitised()) ==> Sanitised()
      ensures Consistent()
    {
      totalMoedas := Filter(texto, AmountChars);
      CalcularTotal();
    }

    /** `handleChangeOnline`, then the totals effect: only `[0-9.,]` is kept. */
    method HandleChangeOnline(texto: string)
      modifies this
      ensures valorOnline == Filter(texto, AmountChars) && AllIn(valorOnline, AmountChars)
      ensures quantidades == old(quantidades) && totalMoedas == old(totalMoedas)
      ensures old(Sanitised()) ==> Sanitised()
      ensures Consistent()
    {
      valorOnline := Filter(texto, AmountChars);
      CalcularTotal();
    }

    /** `limparTudo`, then the totals effect: every field blank, so every total is 0 and the difference is `-saldo`. */
    method LimparTudo()
      modifies this
      ensures quantidades == BlankQuantidades && totalMoedas == "" && valorOnline == ""
      ensures totalFisico == 0.0 && totalOnlineCalculado == 0.0 && totalApurado == 0.0
      ensures Diferenca() == -saldo
      ensures Consistent() && Sanitised()
    {
      quantidades := BlankQuantidades;
      totalMoedas := "";
      valorOnline := "";
      CalcularTotal();
      NotesTotalBlank(BlankQuantidades, Cedulas);
    }

    /** `salvarDados`: the value written under "@contador_dinheiro". */
    method SalvarDados() returns (saved: Contagem)
      ensures saved == Contagem(Some(quantidades), Some(totalMoedas), Some(valorOnline))
    {
      saved := Contagem(Some(quantidades), Some(totalMoedas), Some(valorOnline));
    }

    /**
     * `carregarDadosSalvos`, then the totals effect: a stored draft overwrites
     * the quantities when it has them and each amount only when it is a
     * non-empty string; nothing stored changes nothing.
     */
    method CarregarDadosSalvos(stored: Option<Contagem>)
      modifies this
      ensures stored.None? ==>
        quantidades == old(quantidades) && totalMoedas == old(totalMoedas) && valorOnline == old(valorOnline)
      ensures stored.Some? ==>
        && quantidades == (if stored.value.quantidades.Some? then stored.value.quantidades.value else old(quantidades))
        && totalMoedas == OrElse(stored.value.totalMoedas, old(totalMoedas))
        && valorOnline == OrElse(stored.value.valorOnline, old(valorOnline))
      ensures Consistent()
    {
      if stored.Some? {
        var dados := stored.value;
        if dados.quantidades.Some? {
          quantidades := dados.quantidades.value;
        }
        if Truthy(dados.totalMoedas) {
          totalMoedas := dados.totalMoedas.value;
        }
        if Truthy(dados.valorOnline) {
          valorOnline := dados.valorOnline.value;
        }
      }
      CalcularTotal();
    }
  }

  /**
   * The draft `salvarDados` writes, read back by `carregarDadosSalvos` on a fresh
   * screen, restores all three inputs, including blank amounts, which the load
   * skips but which a fresh screen already has.
   */
  method DraftRoundTrip(c: Contador, saldo: real) returns (d: Contador)
    ensures d.quantidades == c.quantidades
    ensures d.totalMoedas == c.totalMoedas && d.valorOnline == c.valorOnline
    ensures d.saldo == saldo && d.Consistent()
  {
    var saved := c.SalvarDados();
    d := new Contador(saldo);
    d.CarregarDadosSalvos(Some(saved));
  }

  /**
   * The difference shown is what the inputs count minus the system balance; it is
   * a shortfall exactly when less was counted than the balance, and with
   * sanitised inputs that can only happen against a positive balance.
   */
  lemma DiferencaFromInputs(c: Contador)
    requires c.Consistent()
    ensures c.Diferenca() == NotesTotal(c.quantidades, Cedulas) as real + Amount(c.totalMoedas) + Amount(c.valorOnline) - c.saldo
    ensures c.IsNegativo() <==> c.totalApurado < c.saldo
    ensures c.Sanitised() && c.IsNegativo() ==> c.saldo > 0.0
  {
    if c.Sanitised() {
      TotalsNonNegative(c.quantidades, c.totalMoedas, c.valorOnline);
    }
  }

  /** With sanitised inputs the notes, physical, online and counted totals are never negative. */
  lemma TotalsNonNegative(q: map<int, string>, moedas: string, online: string)
    requires DigitsOnly(q) && AllIn(moedas, AmountChars) && AllIn(online, AmountChars)
    ensures NotesTotal(q, Cedulas) >= 0
    ensures NotesTotal(q, Cedulas) as real + Amount(moedas) >= 0.0
    ensures NotesTotal(q, Cedulas) as real + Amount(moedas) + Amount(online) >= 0.0
  {
    NotesTotalNonNegative(q, Cedulas);
    AmountNonNegative(moedas);
    AmountNonNegative(online);
  }
}
