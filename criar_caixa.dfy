/**
 * The new-box form ("nova caixa"): the name checks, the one request it sends
 * and what the screen does with the reply.
 */
module CriarCaixa {
  import opened Common
  import opened Text

  /** The name the system keeps for its main box, in the lower case the check compares against. */
  const Reserved := "principal"

  datatype Refusal = MissingName | ReservedName

  /** The POST `/caixas` body: the name as typed, untrimmed, and the description. */
  datatype Request = Request(verb: Verb, url: string, nome: string, descricao: string)

  datatype SaveOutcome = Refused(why: Refusal) | Sent(request: Request)

  /** The name is the reserved one once trimmed and lower-cased. */
  predicate IsReserved(nome: string)
  {
    Lower(Trim(nome)) == Reserved
  }

  /**
   * `handleSalvar`: an empty name is refused, then a reserved one; otherwise
   * one POST to `/caixas` carries the name exactly as typed and the description.
   */
  function HandleSalvar(nome: string, descricao: string): (outcome: SaveOutcome)
    ensures outcome == Refused(MissingName) <==> nome == ""
    ensures outcome == Refused(ReservedName) <==> nome != "" && IsReserved(nome)
    ensures outcome.Sent? <==> nome != "" && !IsReserved(nome)
    ensures outcome.Sent? ==> outcome.request == Request(Post, "/caixas", nome, descricao)
  {
    if nome == "" then Refused(MissingName)
    else if Lower(Trim(nome)) == "principal" then Refused(ReservedName)
    else Sent(Request(Post, "/caixas", nome, descricao))
  }

  /** A character that lower-cases to a letter is not white space. */
  lemma LetterNotWhitespace(c: char)
    requires 'a' <= LowerChar(c) <= 'z'
    ensures !IsSpace(c)
  {
  }

  /**
   * "Principal" in any casing, padded with any white space, is refused: the
   * system's main box cannot be created a second time from this form.
   */
  lemma ReservedWhateverCasing(left: string, core: string, right: string, descricao: string)
    requires AllSpace(left) && AllSpace(right)
    requires Lower(core) == Reserved
    ensures HandleSalvar(left + core + right, descricao) == Refused(ReservedName)
  {
    assert |core| == 9;
    assert LowerChar(core[0]) == 'p' && LowerChar(core[8]) == 'l';
    LetterNotWhitespace(core[0]);
    LetterNotWhitespace(core[8]);
    TrimPadded(left, core, right);
  }

  /** A name of white space only passes both checks and is sent as typed. */
  lemma BlankNameSent(nome: string, descricao: string)
    requires nome != "" && AllSpace(nome)
    ensures HandleSalvar(nome, descricao) == Sent(Request(Post, "/caixas", nome, descricao))
  {
    TrimBlank(nome);
  }

  /** The server's reply: its status and the `error` field of its JSON body. */
  datatype Response = Response(ok: bool, error: Option<string>)

  /** What the screen does after sending: go back, or stay and show a message. */
  datatype Effect = GoBack | Alert(message: string)

  /**
   * The reply handling of `handleSalvar`: an ok reply goes back; any other
   * shows the server's `error` or a default message and stays; no reply (a
   * network failure or an unreadable body) shows the connection message.
   */
  function Concluir(response: Option<Response>): (effect: Effect)
    ensures effect == GoBack <==> response.Some? && response.value.ok
    ensures response.Some? && !response.value.ok ==>
      effect == Alert(OrElse(response.value.error, "Não foi possível criar a caixa."))
    ensures response.None? ==> effect == Alert("Falha na conexão com o servidor.")
  {
    if response.None? then Alert("Falha na conexão com o servidor.")
    else if response.value.ok then GoBack
    else Alert(OrElse(response.value.error, "Não foi possível criar a caixa."))
  }
}
