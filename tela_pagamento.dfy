/**
 * The payment screen: the amount typed per cash box ("caixa"), the running
 * total, and the checks made before one payment request carrying every line
 * item is sent.
 */
module TelaPagamento {
  import opened Common
  import opened Text
  import opened Sorting
  import opened ContasAPagar

  type BoxId = string

  /**
   * `valoresPorCaixa`: the text typed for each selected box. `order` is the
   * object's key order (insertion order), which `Object.keys`/`Object.values`
   * follow; `text` maps each key to its text.
   */
  datatype Allocation = Allocation(order: seq<BoxId>, text: map<BoxId, string>)
  {
    predicate Valid()
    {
      && Distinct(order)
      && (forall k :: k in text ==> k in order)
      && (forall i :: 0 <= i < |order| ==> order[i] in text)
    }

    /** `Object.values(valoresPorCaixa)`. */
    function Values(): (vals: seq<string>)
      requires Valid()
      ensures |vals| == |order|
      ensures forall i :: 0 <= i < |order| ==> vals[i] == text[order[i]]
    {
      seq(|order|, i requires 0 <= i < |order| => text[order[i]])
    }
  }

  /** The state the screen starts in: `useState({})`. */
  const NoneSelected := Allocation([], map[])

  /** Every typed text went through the amount sanitiser. */
  predicate Sanitised(a: Allocation)
  {
    forall k :: k in a.text ==> AllIn(a.text[k], AmountChars)
  }

  function OtherThan(id: BoxId): BoxId -> bool
  {
    k => k != id
  }

  /** `toggleCaixa`: a selected box is removed with its amount; an unselected one is added with "". */
  function ToggleCaixa(a: Allocation, id: BoxId): (r: Allocation)
    requires a.Valid()
    ensures r.Valid()
    ensures id in a.text ==> id !in r.text && r.order == Keep(a.order, OtherThan(id))
    ensures id !in a.text ==> id in r.text && r.text[id] == "" && r.order == a.order + [id]
    ensures forall k :: k != id ==> (k in r.text <==> k in a.text)
    ensures forall k :: k != id && k in r.text ==> r.text[k] == a.text[k]
  {
    if id in a.text then
      KeepDistinct(a.order, OtherThan(id));
      Allocation(Keep(a.order, OtherThan(id)), a.text - {id})
    else
      Allocation(a.order + [id], a.text[id := ""])
  }

  /** Toggling a box that was not selected twice gives back the same allocation, key order included. */
  lemma ToggleTwice(a: Allocation, id: BoxId)
    requires a.Valid() && id !in a.text
    ensures ToggleCaixa(ToggleCaixa(a, id), id) == a
  {
    var once := Allocation(a.order + [id], a.text[id := ""]);
    assert ToggleCaixa(a, id) == once;
    RemoveAppended(a.order, id);
    assert once.text - {id} == a.text;
  }

  /** Removing the key just appended restores the previous key order. */
  lemma RemoveAppended(order: seq<BoxId>, id: BoxId)
    requires id !in order
    ensures Keep(order + [id], OtherThan(id)) == order
  {
    KeepAppend(order, [id], OtherThan(id));
    assert Keep([id], OtherThan(id)) == [];
    KeepAll(order, OtherThan(id));
    assert order + [] == order;
  }

  /** `onChangeValorCaixa`: keeps only `[0-9.,]` of what was typed and stores it under that box alone. */
  function OnChangeValorCaixa(a: Allocation, id: BoxId, typed: string): (r: Allocation)
    requires a.Valid()
    ensures r.Valid()
    ensures id in r.text && r.text[id] == Filter(typed, AmountChars)
    ensures AllIn(r.text[id], AmountChars)
    ensures forall k :: k != id ==> (k in r.text <==> k in a.text)
    ensures forall k :: k != id && k in r.text ==> r.text[k] == a.text[k]
    ensures r.order == if id in a.text then a.order else a.order + [id]
  {
    var limpo := Filter(typed, AmountChars);
    if id in a.text then Allocation(a.order, a.text[id := limpo])
    else Allocation(a.order + [id], a.text[id := limpo])
  }

  /** The screen's two edits keep every stored text sanitised. */
  lemma EditsKeepSanitised(a: Allocation, id: BoxId, typed: string)
    requires a.Valid() && Sanitised(a)
    ensures Sanitised(ToggleCaixa(a, id))
    ensures Sanitised(OnChangeValorCaixa(a, id, typed))
  {
    assert AllIn("", AmountChars);
  }

  // ----- totalAlocado -----

  /** `parseFloat(val.replace(",", "."))` for each text, in order; `None` is NaN. */
  function Numbers(vals: seq<string>): (nums: seq<Option<real>>)
    ensures |nums| == |vals|
  {
    if vals == [] then [] else Numbers(vals[..|vals| - 1]) + [ParseAmount(vals[|vals| - 1])]
  }

  lemma NumbersStep(vals: seq<string>, v: string)
    ensures Numbers(vals + [v]) == Numbers(vals) + [ParseAmount(v)]
  {
    assert (vals + [v])[..|vals|] == vals;
  }

  /** Each number is the parse of the text in the same position. */
  lemma {:induction false} NumbersParse(vals: seq<string>)
    ensures forall i :: 0 <= i < |vals| ==> Numbers(vals)[i] == ParseAmount(vals[i])
  {
    if vals != [] {
      NumbersParse(vals[..|vals| - 1]);
    }
  }

  /** The value a number adds to a total: NaN adds nothing. */
  function Addend(n: Option<real>): real
  {
    if n.Some? then n.value else 0.0
  }

  /** The sum of the numbers that are not NaN. */
  function SumNumbers(nums: seq<Option<real>>): real
  {
    if nums == [] then 0.0 else SumNumbers(nums[..|nums| - 1]) + Addend(nums[|nums| - 1])
  }

  lemma SumNumbersStep(nums: seq<Option<real>>, n: Option<real>)
    ensures SumNumbers(nums + [n]) == SumNumbers(nums) + Addend(n)
  {
    assert (nums + [n])[..|nums|] == nums;
  }

  /** The total the screen shows: every text that parses adds its value. */
  function AllocatedTotal(a: Allocation): real
    requires a.Valid()
  {
    SumNumbers(Numbers(a.Values()))
  }

  /** `totalAlocado`: a loop over `Object.values` adding each number that is not NaN. */
  method TotalAlocado(a: Allocation) returns (total: real)
    requires a.Valid()
    ensures total == AllocatedTotal(a)
  {
    total := SumParsed(a.Values());
  }

  /** The `forEach` of `totalAlocado` over `Object.values`: each text that parses adds its value. */
  method SumParsed(vals: seq<string>) returns (total: real)
    ensures total == SumNumbers(Numbers(vals))
  {
    total := 0.0;
    var i := 0;
    while i < |vals|
      invariant 0 <= i <= |vals|
      invariant total == SumNumbers(Numbers(vals[..i]))
    {
      ghost var done := vals[..i];
      var val := vals[i];
      var num := ParseAmount(val);
      assert vals[..i + 1] == done + [val];
      NumbersStep(done, val);
      SumNumbersStep(Numbers(done), num);
      if num.Some? {
        total := total + num.value;
      }
      i := i + 1;
    }
    assert vals[..i] == vals;
  }

  /** No number is negative. */
  predicate NonNegative(nums: seq<Option<real>>)
  {
    forall i :: 0 <= i < |nums| && nums[i].Some? ==> nums[i].value >= 0.0
  }

  /** Numbers that are never negative add up to a total that is never negative. */
  lemma {:induction false} SumNonNegative(nums: seq<Option<real>>)
    requires NonNegative(nums)
    ensures SumNumbers(nums) >= 0.0
  {
    if nums != [] {
      SumNonNegative(nums[..|nums| - 1]);
    }
  }

  /** Texts of `[0-9.,]` never parse to a negative number. */
  lemma SanitisedNumbers(a: Allocation)
    requires a.Valid() && Sanitised(a)
    ensures NonNegative(Numbers(a.Values()))
  {
    var vals := a.Values();
    NumbersParse(vals);
    forall i | 0 <= i < |vals|
      ensures var n := ParseAmount(vals[i]); n.Some? ==> n.value >= 0.0
    {
      ParseAmountNonNegative(vals[i]);
    }
  }

  /** The total of a sanitised allocation is never negative. */
  lemma AllocatedTotalNonNegative(a: Allocation)
    requires a.Valid() && Sanitised(a)
    ensures AllocatedTotal(a) >= 0.0
  {
    SanitisedNumbers(a);
    SumNonNegative(Numbers(a.Values()));
  }

  /** The total turns red when it passes what is left to pay by more than 0.01. */
  predicate OverAllocated(a: Allocation, conta: Conta)
    requires a.Valid()
  {
    AllocatedTotal(a) > Remaining(conta) + 0.01
  }

  // ----- handleConfirmarPagamento -----

  /** One line item of the request: `{ caixaId, valor }`. */
  datatype Pagamento = Pagamento(caixaId: BoxId, valor: real)

  /** The request body `{ pagamentos, dataPagamento }` sent to its URL. */
  datatype PaymentRequest = PaymentRequest(verb: Verb, url: string, pagamentos: seq<Pagamento>, dataPagamento: int)

  datatype Refusal = NothingAllocated | ExceedsRemaining(soma: real)

  datatype Outcome = Refused(why: Refusal) | Sent(request: PaymentRequest)

  /** `valorRestanteReal`: `valorRestante` when the conta has one, else its full value. */
  function Remaining(conta: Conta): (r: real)
    ensures conta.valorRestante.Some? ==> r == conta.valorRestante.value
    ensures conta.valorRestante.None? ==> r == conta.valor
  {
    if conta.valorRestante.Some? then conta.valorRestante.value else conta.valor
  }

  /** The slack allowed above the remaining value before a payment is refused. */
  const Tolerance: real := 0.05

  /** The line items kept from boxes `ids` with numbers `nums`: the positive ones, in key order. */
  function KeptFrom(ids: seq<BoxId>, nums: seq<Option<real>>): seq<Pagamento>
    requires |ids| == |nums|
  {
    if ids == [] then []
    else
      var n := |ids| - 1;
      var rest := KeptFrom(ids[..n], nums[..n]);
      if nums[n].Some? && nums[n].value > 0.0 then rest + [Pagamento(ids[n], nums[n].value)] else rest
  }

  lemma KeptFromStep(ids: seq<BoxId>, nums: seq<Option<real>>, id: BoxId, num: Option<real>)
    requires |ids| == |nums|
    ensures KeptFrom(ids + [id], nums + [num]) ==
      KeptFrom(ids, nums) + (if num.Some? && num.value > 0.0 then [Pagamento(id, num.value)] else [])
  {
    assert (ids + [id])[..|ids|] == ids && (nums + [num])[..|nums|] == nums;
  }

  /**
   * Exactly the positive entries are kept: every line item comes from a box whose
   * number is that positive value, and every box with a positive number has its item.
   */
  lemma {:induction false} KeptExactly(ids: seq<BoxId>, nums: seq<Option<real>>)
    requires |ids| == |nums|
    ensures forall p :: p in KeptFrom(ids, nums) ==>
      p.valor > 0.0 && exists i :: 0 <= i < |ids| && ids[i] == p.caixaId && nums[i] == Some(p.valor)
    ensures forall i :: 0 <= i < |ids| && nums[i].Some? && nums[i].value > 0.0 ==>
      Pagamento(ids[i], nums[i].value) in KeptFrom(ids, nums)
  {
    if ids != [] {
      var n := |ids| - 1;
      KeptExactly(ids[..n], nums[..n]);
      assert forall i :: 0 <= i < n ==> ids[..n][i] == ids[i] && nums[..n][i] == nums[i];
    }
  }

  /** `pagamentosParaEnviar`: one `{ caixaId, valor }` per box whose text parses to a positive number. */
  function Kept(a: Allocation): seq<Pagamento>
    requires a.Valid()
  {
    KeptFrom(a.order, Numbers(a.Values()))
  }

  function KeptSum(ps: seq<Pagamento>): real
  {
    if ps == [] then 0.0 else KeptSum(ps[..|ps| - 1]) + ps[|ps| - 1].valor
  }

  lemma KeptSumAppend(ps: seq<Pagamento>, p: Pagamento)
    ensures KeptSum(ps + [p]) == KeptSum(ps) + p.valor
  {
    assert (ps + [p])[..|ps|] == ps;
  }

  /**
   * When no number is negative the checked sum is the displayed total: the
   * entries left out are the ones that parse to nothing or to zero.
   */
  lemma {:induction false} KeptSumIsTotal(ids: seq<BoxId>, nums: seq<Option<real>>)
    requires |ids| == |nums|
    requires NonNegative(nums)
    ensures KeptSum(KeptFrom(ids, nums)) == SumNumbers(nums)
  {
    if ids != [] {
      var n := |ids| - 1;
      KeptSumIsTotal(ids[..n], nums[..n]);
      var rest := KeptFrom(ids[..n], nums[..n]);
      if nums[n].Some? && nums[n].value > 0.0 {
        KeptSumAppend(rest, Pagamento(ids[n], nums[n].value));
      }
    }
  }

  lemma KeptSumIsAllocatedTotal(a: Allocation)
    requires a.Valid() && Sanitised(a)
    ensures KeptSum(Kept(a)) == AllocatedTotal(a)
  {
    SanitisedNumbers(a);
    KeptSumIsTotal(a.order, Numbers(a.Values()));
  }

  /**
   * `handleConfirmarPagamento`: collects the positive entries in key order, refuses
   * an empty selection and a sum above what is left plus 0.05, and otherwise sends
   * one POST to `/contas/{id}/pagar` with every line item and the payment date.
   */
  method HandleConfirmarPagamento(a: Allocation, conta: Conta, now: int) returns (outcome: Outcome)
    requires a.Valid()
    ensures outcome == Refused(NothingAllocated) <==> Kept(a) == []
    ensures outcome.Refused? && outcome.why.ExceedsRemaining? <==>
      Kept(a) != [] && KeptSum(Kept(a)) > Remaining(conta) + Tolerance
    ensures outcome.Refused? && outcome.why.ExceedsRemaining? ==>
      outcome.why.soma == KeptSum(Kept(a))
    ensures outcome.Sent? ==>
      outcome.request == PaymentRequest(Post, "/contas/" + conta.id + "/pagar", Kept(a), now)
  {
    var pagamentos, soma := ColetarPagamentos(a.order, a.Values());
    if |pagamentos| == 0 {
      return Refused(NothingAllocated);
    }
    if soma > Remaining(conta) + Tolerance {
      return Refused(ExceedsRemaining(soma));
    }
    outcome := Sent(PaymentRequest(Post, "/contas/" + conta.id + "/pagar", pagamentos, now));
  }

  /**
   * The `forEach` of `handleConfirmarPagamento` over `Object.keys`, with the text
   * stored under each key: pushes each positive number and adds it to the sum.
   */
  method ColetarPagamentos(ids: seq<BoxId>, vals: seq<string>) returns (pagamentos: seq<Pagamento>, soma: real)
    requires |ids| == |vals|
    ensures pagamentos == KeptFrom(ids, Numbers(vals))
    ensures soma == KeptSum(pagamentos)
  {
    ghost var nums := Numbers(vals);
    NumbersParse(vals);
    pagamentos := [];
    soma := 0.0;
    var i := 0;
    while i < |ids|
      invariant 0 <= i <= |ids|
      invariant pagamentos == KeptFrom(ids[..i], nums[..i])
      invariant soma == KeptSum(pagamentos)
    {
      var caixaId := ids[i];
      var valorStr := vals[i];
      var valorFloat := ParseAmount(valorStr);
      assert ids[..i + 1] == ids[..i] + [caixaId] && nums[..i + 1] == nums[..i] + [valorFloat];
      KeptFromStep(ids[..i], nums[..i], caixaId, valorFloat);
      if valorFloat.Some? && valorFloat.value > 0.0 {
        KeptSumAppend(pagamentos, Pagamento(caixaId, valorFloat.value));
        pagamentos := pagamentos + [Pagamento(caixaId, valorFloat.value)];
        soma := soma + valorFloat.value;
      }
      i := i + 1;
    }
    assert ids[..i] == ids && nums[..i] == nums;
  }

  /**
   * The colour warning is stricter than the check: when the total is shown in
   * green and something positive was typed, the payment is sent.
   */
  lemma GreenTotalIsAccepted(a: Allocation, conta: Conta)
    requires a.Valid() && Sanitised(a)
    requires !OverAllocated(a, conta)
    ensures KeptSum(Kept(a)) <= Remaining(conta) + Tolerance
  {
    KeptSumIsAllocatedTotal(a);
  }

  /**
   * The red total compares the same sum the confirmation checks: with sanitised
   * amounts, it is red exactly when the line items add up to more than what is
   * left plus 0.01.
   */
  lemma OverAllocatedIsKeptSum(a: Allocation, conta: Conta)
    requires a.Valid() && Sanitised(a)
    ensures OverAllocated(a, conta) <==> KeptSum(Kept(a)) > Remaining(conta) + 0.01
  {
    KeptSumIsAllocatedTotal(a);
  }

  /** Two boxes holding the same positive amount give one line item each, in key order. */
  lemma TwoBoxesKept(v: string, x: real)
    requires ParseAmount(v) == Some(x) && x > 0.0
    ensures
      var a := Allocation(["cx1", "cx2"], map["cx1" := v, "cx2" := v]);
      && a.Valid()
      && Kept(a) == [Pagamento("cx1", x), Pagamento("cx2", x)]
      && KeptSum(Kept(a)) == x + x
  {
    var a := Allocation(["cx1", "cx2"], map["cx1" := v, "cx2" := v]);
    assert a.Values() == [v, v];
    TwoNumbers(v);
    TwoKept("cx1", "cx2", x);
  }

  lemma TwoNumbers(v: string)
    ensures Numbers([v, v]) == [ParseAmount(v), ParseAmount(v)]
  {
    NumbersStep([], v);
    NumbersStep([v], v);
    assert [] + [v] == [v] && [v] + [v] == [v, v];
  }

  lemma TwoKept(id1: BoxId, id2: BoxId, x: real)
    requires x > 0.0
    ensures KeptFrom([id1, id2], [Some(x), Some(x)]) == [Pagamento(id1, x), Pagamento(id2, x)]
    ensures KeptSum([Pagamento(id1, x), Pagamento(id2, x)]) == x + x
  {
    OneKept(id1, x);
    KeptFromStep([id1], [Some(x)], id2, Some(x));
    assert [id1] + [id2] == [id1, id2];
    assert [Some(x)] + [Some(x)] == [Some(x), Some(x)];
    KeptSumAppend([Pagamento(id1, x)], Pagamento(id2, x));
    assert [Pagamento(id1, x)] + [Pagamento(id2, x)] == [Pagamento(id1, x), Pagamento(id2, x)];
  }

  lemma OneKept(id: BoxId, x: real)
    requires x > 0.0
    ensures KeptFrom([id], [Some(x)]) == [Pagamento(id, x)]
    ensures KeptSum([Pagamento(id, x)]) == x
  {
    KeptFromStep([], [], id, Some(x));
    assert [] + [id] == [id];
    assert [] + [Some(x)] == [Some(x)];
    KeptSumAppend([], Pagamento(id, x));
    assert [] + [Pagamento(id, x)] == [Pagamento(id, x)];
  }
}
