/**
 * The offline ledger queue: entries saved on the phone while there is no
 * connection (MovimentacaoOffline), and the screen that lists them newest
 * first and replays them to the server one at a time (ListaOffline).
 */
module OfflineQueue {
  import opened Common
  import opened Text
  import opened Sorting

  /** An entry saved offline, as stored under "@financas:movimentacoes_offline"; `data` is its timestamp. */
  datatype Pendencia = Pendencia(
    id: string, descricao: string, valor: real, data: int, tipo: Tipo,
    sincronizado: bool, caixaId: string, caixaNome: string)

  /** A cash box as cached under "@financas:caixas_lista": its `_id` and `nome`. */
  datatype Caixa = Caixa(id: string, nome: string)

  /**
   * The phone's AsyncStorage, holding the parsed value stored under each key;
   * `None` is a key never written.
   */
  class Storage {
    var pendencias: Option<seq<Pendencia>>
    var caixas: Option<seq<Caixa>>

    constructor (pendencias: Option<seq<Pendencia>>, caixas: Option<seq<Caixa>>)
      ensures this.pendencias == pendencias && this.caixas == caixas
    {
      this.pendencias := pendencias;
      this.caixas := caixas;
    }
  }

  // ----- ListaOffline -----

  /** The comparator `(a, b) => new Date(b.data) - new Date(a.data)`: newer entries first. */
  function NewestFirst(): (Pendencia, Pendencia) -> bool
  {
    (a: Pendencia, b: Pendencia) => a.data >= b.data
  }

  lemma NewestFirstIsTotalPreorder()
    ensures TotalPreorder(NewestFirst())
  {
  }

  /** `lista.filter((i) => i.id !== id)`. */
  function Without(lista: seq<Pendencia>, id: string): (r: seq<Pendencia>)
    ensures forall i :: 0 <= i < |r| ==> r[i].id != id && r[i] in lista
    ensures forall i :: 0 <= i < |lista| && lista[i].id != id ==> lista[i] in r
  {
    Keep(lista, (p: Pendencia) => p.id != id)
  }

  /** Removing an id keeps a newest-first list newest first. */
  lemma WithoutSorted(lista: seq<Pendencia>, id: string)
    requires SortedBy(lista, NewestFirst())
    ensures SortedBy(Without(lista, id), NewestFirst())
  {
    SortedFilter(lista, (p: Pendencia) => p.id != id, NewestFirst());
  }

  /** Removing the same id twice removes nothing more. */
  lemma WithoutIdempotent(lista: seq<Pendencia>, id: string)
    ensures Without(Without(lista, id), id) == Without(lista, id)
  {
    var once := Without(lista, id);
    KeepAll(once, (p: Pendencia) => p.id != id);
  }

  /** The body `handleEnviarItem` posts to `/movimentacoes`: the entry's own fields and its original date. */
  datatype Replay = Replay(
    verb: Verb, url: string, caixaId: string, descricao: string, valor: real, tipo: Tipo, data: int)

  function ReplayOf(item: Pendencia): Replay
  {
    Replay(Post, "/movimentacoes", item.caixaId, item.descricao, item.valor, item.tipo, item.data)
  }

  /** How the replay ended: `response.ok`, a response that is not ok, or an exception. */
  datatype SendResult = Accepted | Rejected | Failed

  /**
   * The pending-entries screen: the list it shows, the id of the entry being
   * sent, and `enviando`, the list as `handleEnviarItem` captured it when the
   * send began (the closure's `lista`), which a successful send filters.
   */
  class ListaOffline {
    var lista: seq<Pendencia>
    var loadingId: Option<string>
    var enviando: seq<Pendencia>
    const store: Storage

    /** The shown list, and the one captured by the send, are newest first. */
    ghost predicate Valid()
      reads this
    {
      SortedBy(lista, NewestFirst()) && SortedBy(enviando, NewestFirst())
    }

    constructor (store: Storage)
      ensures lista == [] && loadingId == None && enviando == [] && this.store == store
      ensures Valid()
    {
      lista := [];
      loadingId := None;
      enviando := [];
      this.store := store;
    }

    /** The send buttons are enabled only while nothing is being sent. */
    predicate SendEnabled()
      reads this
    {
      loadingId.None?
    }

    /** An entry's discard button is disabled while that entry is being sent. */
    predicate DiscardEnabled(id: string)
      reads this
    {
      loadingId != Some(id)
    }

    /**
     * `carregarPendencias`: when something is stored, shows it sorted newest
     * first; the stored value itself is left as it was.
     */
    method CarregarPendencias()
      requires Valid()
      modifies this
      ensures Valid()
      ensures store.pendencias.None? ==> lista == old(lista)
      ensures store.pendencias.Some? ==> multiset(lista) == multiset(store.pendencias.value)
      ensures loadingId == old(loadingId) && enviando == old(enviando)
    {
      var stored := store.pendencias;
      if stored.Some? {
        NewestFirstIsTotalPreorder();
        lista := SortedCopy(stored.value, NewestFirst());
      }
    }

    /**
     * The first half of `handleEnviarItem`, up to the request: refused when the
     * device is known to be offline (unknown connectivity goes ahead); otherwise
     * marks the entry as being sent, captures the list as it is now, and posts
     * the entry with its original date.
     */
    method HandleEnviarItem(item: Pendencia, isConnected: Option<bool>) returns (request: Option<Replay>)
      requires Valid()
      modifies this
      ensures Valid()
      ensures isConnected == Some(false) ==>
        request == None && loadingId == old(loadingId) && enviando == old(enviando)
      ensures isConnected != Some(false) ==>
        && request == Some(ReplayOf(item))
        && loadingId == Some(item.id)
        && enviando == lista
        && !SendEnabled() && !DiscardEnabled(item.id)
      ensures request.Some? ==> request.value.data == item.data
      ensures lista == old(lista)
    {
      if isConnected == Some(false) {
        return None;
      }
      loadingId := Some(item.id);
      enviando := lista;
      request := Some(ReplayOf(item));
    }

    /**
     * The second half of `handleEnviarItem`: on success the entry's id leaves
     * the list captured when the send began, and that becomes the shown and
     * stored list; on a refusal or a failure nothing changes; in every case the
     * loading mark is cleared.
     */
    method ConcluirEnvio(item: Pendencia, result: SendResult)
      requires Valid()
      modifies this, store
      ensures Valid()
      ensures loadingId == None && SendEnabled()
      ensures result == Accepted ==> lista == Without(old(enviando), item.id) && store.pendencias == Some(lista)
      ensures result != Accepted ==> lista == old(lista) && store.pendencias == old(store.pendencias)
      ensures enviando == old(enviando) && store.caixas == old(store.caixas)
    {
      if result == Accepted {
        WithoutSorted(enviando, item.id);
        var novaLista := Without(enviando, item.id);
        lista := novaLista;
        store.pendencias := Some(novaLista);
      }
      loadingId := None;
    }

    /** `handleExcluir` once confirmed: drops the id from the list and stores the result, with no request. */
    method HandleExcluir(id: string)
      requires Valid()
      modifies this, store
      ensures Valid()
      ensures lista == Without(old(lista), id) && store.pendencias == Some(lista)
      ensures loadingId == old(loadingId) && enviando == old(enviando) && store.caixas == old(store.caixas)
    {
      WithoutSorted(lista, id);
      var novaLista := Without(lista, id);
      lista := novaLista;
      store.pendencias := Some(novaLista);
    }
  }

  /**
   * An entry discarded while another is being sent comes back when that send
   * succeeds: the success filters the list captured when the send began, in
   * which the discarded entry is still present, and stores the result.
   */
  method DiscardDuringSendRestored(a: Pendencia, b: Pendencia) returns (l: ListaOffline)
    requires a.id != b.id
    ensures b in l.lista && l.store.pendencias == Some(l.lista)
  {
    var store := new Storage(Some([a, b]), None);
    l := new ListaOffline(store);
    l.CarregarPendencias();
    assert b in multiset(l.lista);
    var request := l.HandleEnviarItem(a, Some(true));
    l.HandleExcluir(b.id);
    assert b !in l.lista;
    l.ConcluirEnvio(a, Accepted);
  }

  // ----- MovimentacaoOffline -----

  predicate IsPrincipal(c: Caixa)
  {
    Lower(c.nome) == "principal"
  }

  /** Box `i` is the first box named "principal" in any casing. */
  predicate FirstPrincipalAt(caixas: seq<Caixa>, i: int)
  {
    0 <= i < |caixas| && IsPrincipal(caixas[i]) && forall j :: 0 <= j < i ==> !IsPrincipal(caixas[j])
  }

  /** `caixas.find((c) => c.nome.toLowerCase() === "principal")`. */
  function FindPrincipal(caixas: seq<Caixa>): (r: Option<Caixa>)
    ensures r.None? <==> forall i :: 0 <= i < |caixas| ==> !IsPrincipal(caixas[i])
    ensures r.Some? ==> exists i :: FirstPrincipalAt(caixas, i) && caixas[i] == r.value
  {
    if caixas == [] then None
    else if IsPrincipal(caixas[0]) then
      assert FirstPrincipalAt(caixas, 0);
      Some(caixas[0])
    else
      var r := FindPrincipal(caixas[1..]);
      assert r.Some? ==> exists i :: FirstPrincipalAt(caixas[1..], i) && caixas[1..][i] == r.value;
      assert forall i :: FirstPrincipalAt(caixas[1..], i) ==> FirstPrincipalAt(caixas, i + 1);
      r
  }

  /** `principal || caixas[0]`: the box named "principal" in any casing, else the first box, else none. */
  function DefaultCaixa(caixas: seq<Caixa>): (r: Option<Caixa>)
    ensures (exists i :: FirstPrincipalAt(caixas, i)) ==>
      exists i :: FirstPrincipalAt(caixas, i) && r == Some(caixas[i])
    ensures (forall i :: 0 <= i < |caixas| ==> !IsPrincipal(caixas[i])) ==>
      r == (if caixas == [] then None else Some(caixas[0]))
  {
    var principal := FindPrincipal(caixas);
    if principal.Some? then principal
    else if caixas != [] then Some(caixas[0])
    else None
  }

  /** The default box is always one of the boxes, and there is one whenever the list is not empty. */
  lemma DefaultCaixaChosen(caixas: seq<Caixa>)
    ensures DefaultCaixa(caixas).None? <==> caixas == []
    ensures DefaultCaixa(caixas).Some? ==> DefaultCaixa(caixas).value in caixas
  {
  }

  /** Why a save was refused. */
  datatype Refusal = MissingFields | NoCaixa | InvalidValue

  datatype SaveOutcome = Refused(why: Refusal) | Saved(record: Pendencia)

  /** `valorFormatado` once the type is applied: an outflow is stored times -1. */
  function OfflineValue(tipo: Tipo, v: real): real
  {
    if tipo == Saida then v * -1.0 else v
  }

  /** The stored list, `[]` when none was stored yet. */
  function OrEmpty(stored: Option<seq<Pendencia>>): seq<Pendencia>
  {
    if stored.Some? then stored.value else []
  }

  /** The offline entry form: the typed fields, the cached boxes and the chosen box. */
  class MovimentacaoOffline {
    var valor: string
    var descricao: string
    var tipo: Tipo
    var listaCaixas: seq<Caixa>
    var caixaSelecionada: Option<Caixa>
    const store: Storage

    constructor (store: Storage)
      ensures valor == "" && descricao == "" && tipo == Entrada
      ensures listaCaixas == [] && caixaSelecionada == None && this.store == store
    {
      valor := "";
      descricao := "";
      tipo := Entrada;
      listaCaixas := [];
      caixaSelecionada := None;
      this.store := store;
    }

    /** `carregarCaixasOffline`: shows the cached boxes, when there are any, and preselects the default one. */
    method CarregarCaixasOffline()
      modifies this
      ensures store.caixas.None? ==> listaCaixas == old(listaCaixas) && caixaSelecionada == old(caixaSelecionada)
      ensures store.caixas.Some? ==>
        listaCaixas == store.caixas.value && caixaSelecionada == DefaultCaixa(store.caixas.value)
      ensures valor == old(valor) && descricao == old(descricao) && tipo == old(tipo)
    {
      var cached := store.caixas;
      if cached.Some? {
        listaCaixas := cached.value;
        caixaSelecionada := DefaultCaixa(cached.value);
      }
    }

    /**
     * `handleSalvarOffline`: refuses an empty amount or description, a missing
     * box and an amount that does not parse, without touching storage; otherwise
     * appends one unsynchronised record, with the sign of its type, to the stored list.
     */
    method HandleSalvarOffline(id: string, now: int) returns (outcome: SaveOutcome)
      modifies store
      ensures outcome == Refused(MissingFields) <==> valor == "" || descricao == ""
      ensures outcome == Refused(NoCaixa) <==> valor != "" && descricao != "" && caixaSelecionada.None?
      ensures outcome == Refused(InvalidValue) <==>
        valor != "" && descricao != "" && caixaSelecionada.Some? && ParseAmount(valor).None?
      ensures outcome.Refused? ==> store.pendencias == old(store.pendencias)
      ensures outcome.Saved? ==>
        var caixa := caixaSelecionada.value;
        && ParseAmount(valor).Some?
        && outcome.record == Pendencia(id, descricao, OfflineValue(tipo, ParseAmount(valor).value), now, tipo,
                                       false, caixa.id, caixa.nome)
        && store.pendencias == Some(OrEmpty(old(store.pendencias)) + [outcome.record])
      ensures store.caixas == old(store.caixas)
    {
      if valor == "" || descricao == "" {
        return Refused(MissingFields);
      }
      if caixaSelecionada.None? {
        return Refused(NoCaixa);
      }
      var parsed := ParseAmount(valor);
      if parsed.None? {
        return Refused(InvalidValue);
      }
      var valorFormatado := parsed.value;
      if tipo == Saida {
        valorFormatado := valorFormatado * -1.0;
      }
      var caixa := caixaSelecionada.value;
      var novaMovimentacao := Pendencia(id, descricao, valorFormatado, now, tipo, false, caixa.id, caixa.nome);
      var listaAtual := OrEmpty(store.pendencias);
      listaAtual := listaAtual + [novaMovimentacao];
      store.pendencias := Some(listaAtual);
      outcome := Saved(novaMovimentacao);
    }
  }
}
